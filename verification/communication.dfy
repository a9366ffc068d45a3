/**
 * `sizeof_pow2` of communication.py: the buffer size for a message, the
 * smallest power of two holding the message's serialised size. The size
 * (`getsizeof` of the pickled data) is an input here.
 */
module Communication {

  function Pow2(i: nat): (p: nat)
    ensures p >= 1 && p > i
  {
    if i == 0 then 1 else 2 * Pow2(i - 1)
  }

  /** A power of two: 2^i for some i. */
  ghost predicate IsPow2(p: nat) {
    exists i: nat :: p == Pow2(i)
  }

  /** p is the smallest power of two that is at least s. */
  ghost predicate LeastPow2Above(s: nat, p: nat) {
    exists i: nat :: IsLeastPow2At(s, p, i)
  }

  /** p is 2^i, at least s, and 2^(i-1) is not. */
  predicate IsLeastPow2At(s: nat, p: nat, i: nat) {
    p == Pow2(i) && s <= p && (i > 0 ==> Pow2(i - 1) < s)
  }

  lemma {:induction false} Pow2Monotone(i: nat, j: nat)
    requires i <= j
    ensures Pow2(i) <= Pow2(j)
    decreases j
  {
    if i < j {
      Pow2Monotone(i, j - 1);
    }
  }

  /**
   * `sizeof_pow2`: try 1, 2, 4, ... and return the first power of two the
   * size fits in.
   */
  method SizeofPow2(s: nat) returns (size: nat)
    ensures IsPow2(size) && s <= size
    ensures LeastPow2Above(s, size)
    ensures s <= 1 ==> size == 1
  {
    var i: nat := 0;
    while true
      invariant i <= s
      invariant i > 0 ==> Pow2(i - 1) < s
      decreases s - i
    {
      size := Pow2(i);
      if s <= size {
        assert IsLeastPow2At(s, size, i);
        return size;
      }
      i := i + 1;
    }
  }

  /** Only one power of two is the least one above s. */
  lemma LeastPow2Unique(s: nat, p: nat, q: nat)
    requires LeastPow2Above(s, p) && LeastPow2Above(s, q)
    ensures p == q
  {
    var i: nat :| IsLeastPow2At(s, p, i);
    var j: nat :| IsLeastPow2At(s, q, j);
    if i < j {
      Pow2Monotone(i, j - 1);
    } else if j < i {
      Pow2Monotone(j, i - 1);
    }
  }

  /** A larger message never gets a smaller buffer. */
  lemma LeastPow2Monotone(s1: nat, s2: nat, p1: nat, p2: nat)
    requires s1 <= s2
    requires LeastPow2Above(s1, p1) && LeastPow2Above(s2, p2)
    ensures p1 <= p2
  {
    var i: nat :| IsLeastPow2At(s1, p1, i);
    var j: nat :| IsLeastPow2At(s2, p2, j);
    if j < i {
      Pow2Monotone(j, i - 1);
    } else {
      Pow2Monotone(i, j);
    }
  }
}

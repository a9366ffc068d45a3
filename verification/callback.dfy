/**
 * The callback registry of callback.py: an ordered map from references to
 * lists of callbacks, optionally restricted to a fixed set of references,
 * and a shared map of states handed to every callback.
 *
 * The lists are heap objects, as in Python: in restricted mode every key
 * starts out bound to ONE list (`OrderedDict.fromkeys(keys, [])`), so a
 * callback appended under one key is seen under all keys still bound to it.
 * Callbacks are opaque identifiers; executing them yields a trace of
 * invocations.
 */
module Callback {
  import opened Wrappers
  import opened PySeq

  /** A registry key (`reference`). */
  datatype Reference = Reference(id: nat)

  /** A stored callable. */
  datatype Callback = Callback(id: nat)

  /** The value of a state entry. */
  datatype Value = Value(id: nat)

  type States = map<string, Value>

  /** One call `callback(states)`. */
  datatype Invocation = Invocation(callback: Callback, states: States)

  /** How an operation ended: normally, or with the exception Python raises. */
  datatype Outcome = Ok | KeyError | IndexError

  /** A Python list of callbacks: one object, possibly bound to several keys. */
  class CallbackList {
    var items: seq<Callback>

    constructor (items: seq<Callback>)
      ensures this.items == items
    {
      this.items := items;
    }
  }

  /**
   * The keys of `OrderedDict.fromkeys(keys)`: each key once, at the
   * position of its first occurrence.
   */
  function FromKeys(keys: seq<Reference>): (r: seq<Reference>)
    ensures Distinct(r)
    ensures forall k :: k in r <==> k in keys
    ensures keys != [] ==> r != [] && r[0] == keys[0]
  {
    AddKeys([], keys)
  }

  function AddKeys(acc: seq<Reference>, keys: seq<Reference>): (r: seq<Reference>)
    requires Distinct(acc)
    ensures Distinct(r)
    ensures forall k :: k in r <==> k in acc || k in keys
    ensures |acc| <= |r| && r[..|acc|] == acc
    decreases |keys|
  {
    if keys == [] then acc
    else if keys[0] in acc then AddKeys(acc, keys[1..])
    else AddKeys(acc + [keys[0]], keys[1..])
  }

  /** The key order after `del d[k]`. */
  function Without(order: seq<Reference>, k: Reference): (r: seq<Reference>)
    ensures forall x :: x in r <==> x in order && x != k
    ensures Distinct(order) ==> Distinct(r)
    ensures k !in order ==> r == order
  {
    if order == [] then []
    else if order[0] == k then Without(order[1..], k)
    else
      assert Distinct(order) ==> order[0] !in order[1..];
      [order[0]] + Without(order[1..], k)
  }

  /** Adding keys in two batches is adding them all: the batches' keys stay in order. */
  lemma {:induction false} AddKeysConcat(acc: seq<Reference>, k1: seq<Reference>, k2: seq<Reference>)
    requires Distinct(acc)
    ensures AddKeys(acc, k1 + k2) == AddKeys(AddKeys(acc, k1), k2)
    decreases |k1|
  {
    if k1 == [] {
      assert k1 + k2 == k2;
    } else {
      assert (k1 + k2)[0] == k1[0];
      assert (k1 + k2)[1..] == k1[1..] + k2;
      if k1[0] in acc {
        AddKeysConcat(acc, k1[1..], k2);
      } else {
        AddKeysConcat(acc + [k1[0]], k1[1..], k2);
      }
    }
  }

  /** One more key is placed last, unless it is already there. */
  lemma AddKeysOne(acc: seq<Reference>, k: Reference)
    requires Distinct(acc)
    ensures AddKeys(acc, [k]) == if k in acc then acc else acc + [k]
  {
    assert [k][1..] == [];
  }

  /**
   * `fromkeys` keeps first occurrences in order: the keys of `keys + [k]`
   * are those of `keys`, followed by `k` only when it is new.
   */
  lemma FromKeysSnoc(keys: seq<Reference>, k: Reference)
    ensures FromKeys(keys + [k]) == if k in keys then FromKeys(keys) else FromKeys(keys) + [k]
  {
    AddKeysConcat([], keys, [k]);
    AddKeysOne(FromKeys(keys), k);
  }

  /** `del` on a split order deletes from each part, keeping the order of both. */
  lemma {:induction false} WithoutConcat(o1: seq<Reference>, o2: seq<Reference>, k: Reference)
    ensures Without(o1 + o2, k) == Without(o1, k) + Without(o2, k)
    decreases |o1|
  {
    if o1 == [] {
      assert o1 + o2 == o2;
    } else {
      assert (o1 + o2)[0] == o1[0];
      assert (o1 + o2)[1..] == o1[1..] + o2;
      WithoutConcat(o1[1..], o2, k);
      if o1[0] != k {
        assert [o1[0]] + (Without(o1[1..], k) + Without(o2, k))
            == ([o1[0]] + Without(o1[1..], k)) + Without(o2, k);
      }
    }
  }

  /** In a distinct order, `del` removes the key at its position and keeps the rest in order. */
  lemma {:induction false} WithoutAt(order: seq<Reference>, i: nat)
    requires Distinct(order) && i < |order|
    ensures Without(order, order[i]) == order[..i] + order[i + 1..]
    decreases i
  {
    var k, tail := order[i], order[1..];
    DistinctTail(order);
    if i == 0 {
      assert Without(order, k) == Without(tail, k);
    } else {
      assert order[0] != k;
      assert tail[i - 1] == k;
      WithoutAt(tail, i - 1);
      assert Without(order, k) == [order[0]] + Without(tail, k);
      assert order[..i] + order[i + 1..] == [order[0]] + (tail[..i - 1] + tail[i..]);
    }
  }

  /** Dropping the first key of a distinct order leaves a distinct order without it. */
  lemma DistinctTail(order: seq<Reference>)
    requires Distinct(order) && order != []
    ensures Distinct(order[1..]) && order[0] !in order[1..]
  {
    var tail := order[1..];
    forall a, b | 0 <= a < b < |tail| ensures tail[a] != tail[b] {
      assert tail[a] == order[a + 1] && tail[b] == order[b + 1];
    }
    forall j | 0 <= j < |tail| ensures tail[j] != order[0] {
      assert tail[j] == order[j + 1];
    }
  }

  /** The default `index` of `remove_callback` and `execute_callback`. */
  const DefaultIndex: int := -1

  /** The default index picks the last callback of a non-empty list, and `pop` at it drops just that one. */
  lemma DefaultIndexIsLast(items: seq<Callback>)
    requires items != []
    ensures PyIndex(|items|, DefaultIndex) == Some(|items| - 1)
    ensures RemoveAt(items, |items| - 1) == items[..|items| - 1]
  {
  }

  /** Calling each callback of a list, in list order, with the same states. */
  function Run(items: seq<Callback>, states: States): (r: seq<Invocation>)
    ensures |r| == |items|
    ensures forall j :: 0 <= j < |r| ==> r[j] == Invocation(items[j], states)
  {
    seq(|items|, j requires 0 <= j < |items| => Invocation(items[j], states))
  }

  /** `execute_all_callbacks`: the lists of the keys in insertion order, each in list order. */
  function Schedule(order: seq<Reference>, view: map<Reference, seq<Callback>>, states: States): seq<Invocation>
    requires forall k :: k in order ==> k in view
  {
    if order == [] then []
    else
      var last := order[|order| - 1];
      Schedule(order[..|order| - 1], view, states) + Run(view[last], states)
  }

  /** The schedule of a split key order is the two schedules one after the other. */
  lemma {:induction false} ScheduleConcat(o1: seq<Reference>, o2: seq<Reference>, view: map<Reference, seq<Callback>>, states: States)
    requires forall k :: k in o1 + o2 ==> k in view
    ensures Schedule(o1 + o2, view, states) == Schedule(o1, view, states) + Schedule(o2, view, states)
    decreases |o2|
  {
    if o2 == [] {
      assert o1 + o2 == o1;
    } else {
      var o2', last := o2[..|o2| - 1], o2[|o2| - 1];
      assert o2 == o2' + [last];
      assert o1 + o2 == (o1 + o2') + [last];
      ScheduleConcat(o1, o2', view, states);
      ScheduleSnoc(o1 + o2', last, view, states);
      ScheduleSnoc(o2', last, view, states);
      var s1, s2, r := Schedule(o1, view, states), Schedule(o2', view, states), Run(view[last], states);
      assert (s1 + s2) + r == s1 + (s2 + r);
    }
  }

  /** One more key runs its list after the schedule of the others. */
  lemma ScheduleSnoc(order: seq<Reference>, k: Reference, view: map<Reference, seq<Callback>>, states: States)
    requires forall x :: x in order + [k] ==> x in view
    ensures Schedule(order + [k], view, states) == Schedule(order, view, states) + Run(view[k], states)
  {
    assert (order + [k])[..|order + [k]| - 1] == order;
  }

  /** Every call receives the same states map. */
  lemma {:induction false} ScheduleSharesStates(order: seq<Reference>, view: map<Reference, seq<Callback>>, states: States)
    requires forall k :: k in order ==> k in view
    ensures forall c :: c in Schedule(order, view, states) ==> c.states == states
    decreases |order|
  {
    if order != [] {
      ScheduleSharesStates(order[..|order| - 1], view, states);
    }
  }

  /** Concatenating n copies of a sequence. */
  function Repeat<T>(s: seq<T>, n: nat): (r: seq<T>)
    ensures |r| == n * |s|
  {
    if n == 0 then [] else Repeat(s, n - 1) + s
  }

  /**
   * When every key is bound to lists with the same contents (a restricted
   * registry whose keys all share the one list), each callback of that list
   * runs once per key.
   */
  lemma {:induction false} SharedListRunsOncePerKey(order: seq<Reference>, view: map<Reference, seq<Callback>>, items: seq<Callback>, states: States)
    requires forall k :: k in order ==> k in view && view[k] == items
    ensures Schedule(order, view, states) == Repeat(Run(items, states), |order|)
    decreases |order|
  {
    if order != [] {
      SharedListRunsOncePerKey(order[..|order| - 1], view, items, states);
    }
  }

  class CallbackManager {
    const restricted: bool
    /** The keys of `_callbacks` in insertion order. */
    var order: seq<Reference>
    /** `_callbacks`: each key bound to a list object. */
    var lists: map<Reference, CallbackList>
    /** `_states`. */
    var states: States

    ghost predicate Valid()
      reads this
    {
      Distinct(order) && (forall k :: k in lists <==> k in order)
    }

    /** The contents of each key's list. */
    ghost function View(): map<Reference, seq<Callback>>
      reads this, lists.Values
    {
      map k | k in lists :: lists[k].items
    }

    /** `CallbackManager(valid_references)`; None is the unrestricted registry. */
    constructor (validReferences: Option<seq<Reference>>)
      ensures Valid() && states == map[]
      ensures restricted <==> validReferences.Some?
      ensures validReferences.None? ==> order == [] && lists == map[]
      ensures validReferences.Some? ==> order == FromKeys(validReferences.value)
      ensures forall k :: k in lists ==> fresh(lists[k]) && lists[k].items == []
      ensures forall k, k' :: k in lists && k' in lists ==> lists[k] == lists[k']
    {
      states := map[];
      if validReferences == None {
        restricted := false;
        order := [];
        lists := map[];
      } else {
        restricted := true;
        var shared := new CallbackList([]);
        var keys := FromKeys(validReferences.value);
        order := keys;
        lists := map k | k in keys :: shared;
      }
    }

    /** `append_callback(reference, callback)`. */
    method AppendCallback(reference: Reference, callback: Callback) returns (r: Outcome)
      requires Valid()
      modifies this, lists.Values
      ensures Valid() && states == old(states)
      ensures reference in old(lists) ==>
        r == Ok && order == old(order) && lists == old(lists) &&
        forall k :: k in lists ==>
          lists[k].items == if lists[k] == lists[reference] then old(lists[k].items) + [callback]
                            else old(lists[k].items)
      ensures reference !in old(lists) && restricted ==>
        r == KeyError && order == old(order) && lists == old(lists) &&
        forall k :: k in lists ==> lists[k].items == old(lists[k].items)
      ensures reference !in old(lists) && !restricted ==>
        r == Ok && order == old(order) + [reference] &&
        reference in lists && fresh(lists[reference]) && lists[reference].items == [callback] &&
        forall k :: k in old(lists) ==> lists[k] == old(lists[k]) && lists[k].items == old(lists[k].items)
    {
      if reference in lists {
        var target := lists[reference];
        target.items := target.items + [callback];
        r := Ok;
      } else if restricted {
        r := KeyError;
      } else {
        var created := new CallbackList([callback]);
        lists := lists[reference := created];
        order := order + [reference];
        r := Ok;
      }
    }

    /** `remove_callback(reference, index)`: `pop(index)` on the key's list. */
    method RemoveCallback(reference: Reference, index: int) returns (r: Outcome)
      requires Valid()
      modifies lists.Values
      ensures order == old(order) && lists == old(lists) && states == old(states)
      ensures reference !in lists ==>
        r == KeyError && forall k :: k in lists ==> lists[k].items == old(lists[k].items)
      ensures reference in lists && PyIndex(|old(lists[reference].items)|, index).None? ==>
        r == IndexError && forall k :: k in lists ==> lists[k].items == old(lists[k].items)
      ensures reference in lists && PyIndex(|old(lists[reference].items)|, index).Some? ==>
        r == Ok &&
        forall k :: k in lists ==>
          lists[k].items == if lists[k] == lists[reference]
                            then RemoveAt(old(lists[k].items), PyIndex(|old(lists[reference].items)|, index).value)
                            else old(lists[k].items)
    {
      if reference !in lists {
        return KeyError;
      }
      var target := lists[reference];
      var position := PyIndex(|target.items|, index);
      if position.None? {
        return IndexError;
      }
      target.items := RemoveAt(target.items, position.value);
      r := Ok;
    }

    /**
     * `remove_callbacks(reference)`. Restricted: bind the key to a fresh
     * empty list (a key that was not there is added). Unrestricted: delete
     * the key, KeyError when it is not there.
     */
    method RemoveCallbacks(reference: Reference) returns (r: Outcome)
      requires Valid()
      modifies this
      ensures Valid() && states == old(states)
      ensures restricted ==>
        r == Ok && order == (if reference in old(lists) then old(order) else old(order) + [reference]) &&
        lists.Keys == old(lists).Keys + {reference} &&
        fresh(lists[reference]) && lists[reference].items == [] &&
        (forall k :: k in old(lists) && k != reference ==> lists[k] == old(lists[k]))
      ensures !restricted && reference !in old(lists) ==>
        r == KeyError && order == old(order) && lists == old(lists)
      ensures !restricted && reference in old(lists) ==>
        r == Ok && order == Without(old(order), reference) && lists == old(lists) - {reference}
    {
      if restricted {
        var created := new CallbackList([]);
        if reference !in lists {
          order := order + [reference];
        }
        lists := lists[reference := created];
        r := Ok;
      } else if reference in lists {
        lists := lists - {reference};
        order := Without(order, reference);
        r := Ok;
      } else {
        r := KeyError;
      }
    }

    /** `remove_all_callbacks()`: restricted keeps the keys, all bound to one new empty list. */
    method RemoveAllCallbacks()
      requires Valid()
      modifies this
      ensures Valid() && states == old(states)
      ensures restricted ==>
        order == old(order) && lists.Keys == old(lists).Keys &&
        (forall k :: k in lists ==> fresh(lists[k]) && lists[k].items == []) &&
        (forall k, k' :: k in lists && k' in lists ==> lists[k] == lists[k'])
      ensures !restricted ==> order == [] && lists == map[]
    {
      if restricted {
        var shared := new CallbackList([]);
        lists := map k | k in lists :: shared;
      } else {
        lists := map[];
        order := [];
      }
    }

    /** `execute_callback(reference, index)`: call one element of the key's list. */
    method ExecuteCallback(reference: Reference, index: int) returns (r: Outcome, call: Option<Invocation>)
      requires Valid()
      ensures reference !in lists ==> r == KeyError && call == None
      ensures reference in lists ==>
        match PyIndex(|lists[reference].items|, index)
        case None => r == IndexError && call == None
        case Some(j) => r == Ok && call == Some(Invocation(lists[reference].items[j], states))
    {
      if reference !in lists {
        return KeyError, None;
      }
      var items := lists[reference].items;
      var position := PyIndex(|items|, index);
      if position.None? {
        return IndexError, None;
      }
      r, call := Ok, Some(Invocation(items[position.value], states));
    }

    /** `execute_callbacks(reference)`: call the key's list in order. */
    method ExecuteCallbacks(reference: Reference) returns (r: Outcome, calls: seq<Invocation>)
      requires Valid()
      ensures reference !in lists ==> r == KeyError && calls == []
      ensures reference in lists ==> r == Ok && calls == Run(lists[reference].items, states)
    {
      if reference !in lists {
        return KeyError, [];
      }
      var items := lists[reference].items;
      calls := [];
      var j := 0;
      while j < |items|
        invariant 0 <= j <= |items|
        invariant calls == Run(items[..j], states)
      {
        calls := calls + [Invocation(items[j], states)];
        j := j + 1;
      }
      assert items[..j] == items;
      r := Ok;
    }

    /** `execute_all_callbacks()`: every list of every key, keys in insertion order. */
    method ExecuteAllCallbacks() returns (calls: seq<Invocation>)
      requires Valid()
      ensures calls == Schedule(order, View(), states)
    {
      calls := [];
      var i := 0;
      while i < |order|
        invariant 0 <= i <= |order|
        invariant calls == Schedule(order[..i], View(), states)
      {
        var items := lists[order[i]].items;
        var j := 0;
        while j < |items|
          invariant 0 <= j <= |items|
          invariant calls == Schedule(order[..i], View(), states) + Run(items[..j], states)
        {
          calls := calls + [Invocation(items[j], states)];
          j := j + 1;
        }
        assert items[..j] == items;
        assert order[..i + 1][..i] == order[..i];
        i := i + 1;
      }
      assert order[..i] == order;
    }

    /** `set_states(**states)`: insert or overwrite the given names. */
    method SetStates(updates: States)
      modifies this
      ensures order == old(order) && lists == old(lists)
      ensures states.Keys == old(states).Keys + updates.Keys
      ensures forall n :: n in updates ==> states[n] == updates[n]
      ensures forall n :: n in old(states) && n !in updates ==> states[n] == old(states)[n]
    {
      states := states + updates;
    }

    /** `del_states(*names)`: pop each name, ignoring the absent ones. */
    method DelStates(names: seq<string>)
      modifies this
      ensures order == old(order) && lists == old(lists)
      ensures forall n :: n in states <==> n in old(states) && n !in names
      ensures forall n :: n in states ==> states[n] == old(states)[n]
    {
      var i := 0;
      while i < |names|
        invariant 0 <= i <= |names|
        invariant order == old(order) && lists == old(lists)
        invariant forall n :: n in states <==> n in old(states) && n !in names[..i]
        invariant forall n :: n in states ==> states[n] == old(states)[n]
      {
        states := states - {names[i]};
        assert names[..i + 1] == names[..i] + [names[i]];
        i := i + 1;
      }
      assert names[..i] == names;
    }
  }

  /**
   * A restricted registry over two keys: a callback appended under the first
   * key is seen under the second; after `remove_callbacks` rebinds the first
   * key, appends under the second no longer reach it.
   */
  method RestrictedAliasing() returns (first: seq<Callback>, second: seq<Callback>)
    ensures first == [Callback(0)] && second == [Callback(0), Callback(1)]
  {
    var a, b := Reference(0), Reference(1);
    var m := new CallbackManager(Some([a, b]));
    assert a in m.order && b in m.order;
    var shared := m.lists[a];
    assert m.lists[b] == shared && shared.items == [];
    var _ := m.AppendCallback(a, Callback(0));
    second := m.lists[b].items;
    assert second == [Callback(0)];
    var _ := m.RemoveCallbacks(a);
    var rebound := m.lists[a];
    assert rebound.items == [] && m.lists[b] == shared && rebound != shared;
    first, second := AppendToEach(m, a, b);
  }

  /** The rest of the run above: append 0 through `a`, then 1 through `b`, and read both lists. */
  method AppendToEach(m: CallbackManager, a: Reference, b: Reference) returns (first: seq<Callback>, second: seq<Callback>)
    requires m.Valid() && a in m.lists && b in m.lists && m.lists[a] != m.lists[b]
    requires m.lists[a].items == [] && m.lists[b].items == [Callback(0)]
    modifies m, m.lists.Values
    ensures first == [Callback(0)] && second == [Callback(0), Callback(1)]
  {
    var rebound, shared := m.lists[a], m.lists[b];
    var _ := m.AppendCallback(a, Callback(0));
    assert rebound.items == [Callback(0)] && shared.items == [Callback(0)];
    assert a in m.lists && b in m.lists;
    var _ := m.AppendCallback(b, Callback(1));
    assert m.lists[a] == rebound && m.lists[b] == shared;
    first := m.lists[a].items;
    second := m.lists[b].items;
  }
}

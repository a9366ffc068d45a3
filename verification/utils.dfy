/**
 * The small vector and matrix algebra of utils.py, over mathematical reals.
 * Python floats are modelled as `real`; rounding is not modelled.
 */
module Utils {

  /** vec3: three components, an immutable value. */
  datatype Vec3 = Vec3(x: real, y: real, z: real)

  /** `vec3()`: the default-constructed (zero) vector. */
  const Zero: Vec3 := Vec3(0.0, 0.0, 0.0)

  function Add(a: Vec3, b: Vec3): Vec3 {
    Vec3(a.x + b.x, a.y + b.y, a.z + b.z)
  }

  function Neg(a: Vec3): Vec3 {
    Vec3(-a.x, -a.y, -a.z)
  }

  /** `u**2`. */
  function Sq(u: real): real {
    u * u
  }

  /** The squared length x**2 + y**2 + z**2 (the argument of `sqrt` in `length`). */
  function SquaredLength(a: Vec3): real {
    Sq(a.x) + Sq(a.y) + Sq(a.z)
  }

  /** `vec3.from_line`: the vector that leads from point 1 to point 2. */
  function FromLine(x1: real, y1: real, z1: real, x2: real, y2: real, z2: real): (v: Vec3)
    ensures Add(Vec3(x1, y1, z1), v) == Vec3(x2, y2, z2)
  {
    Vec3(x2 - x1, y2 - y1, z2 - z1)
  }

  /** Reversing the line negates the vector. */
  lemma FromLineReversed(x1: real, y1: real, z1: real, x2: real, y2: real, z2: real)
    ensures FromLine(x2, y2, z2, x1, y1, z1) == Neg(FromLine(x1, y1, z1, x2, y2, z2))
  {
  }

  /**
   * The second argument of `dot_product` and `cross_product`: either another
   * vec3, or a number that is taken as the x component (y and z then come
   * from the extra arguments).
   */
  datatype Operand = Vector(v: Vec3) | Number(n: real)

  /** `vec3.dot_product(other, y=0, z=0)`. */
  function DotProduct(a: Vec3, other: Operand, y: real, z: real): real {
    match other
    case Vector(b) => a.x * b.x + a.y * b.y + a.z * b.z
    case Number(n) => a.x * n + a.y * y + a.z * z
  }

  /** `vec3.cross_product(other, y=0, z=0)`. */
  function CrossProduct(a: Vec3, other: Operand, y: real, z: real): Vec3 {
    match other
    case Vector(b) => Vec3(a.y * b.z - b.y * a.z, a.z * b.x - b.z * a.x, a.x * b.y - b.x * a.y)
    case Number(n) => Vec3(a.y * z - y * a.z, a.z * n - z * a.x, a.x * y - n * a.y)
  }

  /** Shorthands for the vector forms. */
  function Dot(a: Vec3, b: Vec3): real { DotProduct(a, Vector(b), 0.0, 0.0) }
  function Cross(a: Vec3, b: Vec3): Vec3 { CrossProduct(a, Vector(b), 0.0, 0.0) }

  /** With a vector argument the extra y and z arguments are ignored. */
  lemma VectorFormIgnoresExtras(a: Vec3, b: Vec3, y: real, z: real)
    ensures DotProduct(a, Vector(b), y, z) == Dot(a, b)
    ensures CrossProduct(a, Vector(b), y, z) == Cross(a, b)
  {
  }

  /** The scalar-argument forms agree with the vector forms. */
  lemma ScalarFormsAgree(a: Vec3, b: Vec3)
    ensures DotProduct(a, Number(b.x), b.y, b.z) == Dot(a, b)
    ensures CrossProduct(a, Number(b.x), b.y, b.z) == Cross(a, b)
  {
  }

  lemma DotSymmetric(a: Vec3, b: Vec3)
    ensures Dot(a, b) == Dot(b, a)
  {
  }

  lemma DotSelfIsSquaredLength(a: Vec3)
    ensures Dot(a, a) == SquaredLength(a)
  {
  }

  /** a x b = -(b x a), and so a x a is the zero vector. */
  lemma CrossAntiCommutative(a: Vec3, b: Vec3)
    ensures Cross(a, b) == Neg(Cross(b, a))
    ensures Cross(a, a) == Zero
  {
  }

  /** The cross product is orthogonal to both of its operands. */
  lemma CrossOrthogonal(a: Vec3, b: Vec3)
    ensures Dot(a, Cross(a, b)) == 0.0
    ensures Dot(b, Cross(a, b)) == 0.0
  {
  }

  /**
   * `vec3.normalize`. `length` is the value `sqrt` returns for the squared
   * length: the model takes it as an argument, as it has no square root.
   * A zero length is the ZeroDivisionError branch, which returns `vec3()`.
   */
  function Normalize(a: Vec3, length: real): (r: Vec3)
    requires 0.0 <= length && Sq(length) == SquaredLength(a)
    ensures length == 0.0 ==> r == Zero
    ensures length != 0.0 ==> SquaredLength(r) == 1.0
    ensures length != 0.0 ==> a == Vec3(r.x * length, r.y * length, r.z * length)
  {
    if length == 0.0 then
      Zero
    else
      var r := Vec3(a.x / length, a.y / length, a.z / length);
      UnitAfterDivision(a, length, r);
      r
  }

  lemma SquareNonNegative(u: real)
    ensures Sq(u) >= 0.0
  {
    if u < 0.0 {
      var v := -u;
      assert v * v >= 0.0;
      assert u * u == v * v;
    }
  }

  lemma SquareNonZero(u: real)
    requires u != 0.0
    ensures Sq(u) != 0.0
  {
    assert u * (1.0 / u) == 1.0;
  }

  /** A vector has squared length zero exactly when it is the zero vector. */
  lemma SquaredLengthZero(a: Vec3)
    ensures SquaredLength(a) == 0.0 <==> a == Zero
  {
    SquareNonNegative(a.x);
    SquareNonNegative(a.y);
    SquareNonNegative(a.z);
    if a.x != 0.0 { SquareNonZero(a.x); }
    if a.y != 0.0 { SquareNonZero(a.y); }
    if a.z != 0.0 { SquareNonZero(a.z); }
  }

  lemma UnitAfterDivision(a: Vec3, length: real, r: Vec3)
    requires 0.0 < length && Sq(length) == SquaredLength(a)
    requires r == Vec3(a.x / length, a.y / length, a.z / length)
    ensures SquaredLength(r) == 1.0
  {
    var l2 := Sq(length);
    SquareNonZero(length);
    ScaledSquare(r.x, length, a.x);
    ScaledSquare(r.y, length, a.y);
    ScaledSquare(r.z, length, a.z);
    calc {
      SquaredLength(r) * l2;
      (Sq(r.x) + Sq(r.y) + Sq(r.z)) * l2;
      { Distribute(Sq(r.x), Sq(r.y), Sq(r.z), l2); }
      Sq(r.x) * l2 + Sq(r.y) * l2 + Sq(r.z) * l2;
      Sq(a.x) + Sq(a.y) + Sq(a.z);
      SquaredLength(a);
      l2;
    }
    UnitFactor(SquaredLength(r), l2);
  }

  lemma Distribute(x: real, y: real, z: real, c: real)
    ensures (x + y + z) * c == x * c + y * c + z * c
  {
  }

  lemma ScaledSquare(q: real, l: real, u: real)
    requires l != 0.0 && q == u / l
    ensures Sq(q) * Sq(l) == Sq(u)
  {
    assert q * l == u;
    assert (q * l) * (q * l) == (q * q) * (l * l);
  }

  lemma UnitFactor(s: real, l2: real)
    requires l2 != 0.0 && s * l2 == l2
    ensures s == 1.0
  {
    assert (s - 1.0) * l2 == 0.0;
  }

  /** mat4x4: a flat sequence of values (normally sixteen). */
  datatype Mat4x4 = Mat4x4(values: seq<real>)

  /** `mat4x4.identity()`. */
  function Identity(): Mat4x4 {
    Mat4x4([1.0, 0.0, 0.0, 0.0,
            0.0, 1.0, 0.0, 0.0,
            0.0, 0.0, 1.0, 0.0,
            0.0, 0.0, 0.0, 1.0])
  }

  /** `mat4x4.__len__`. */
  function Len(m: Mat4x4): nat {
    |m.values|
  }

  /** The identity has sixteen entries: ones on the diagonal (0, 5, 10, 15), zeros elsewhere. */
  lemma IdentityEntries()
    ensures Len(Identity()) == 16
    ensures forall i :: 0 <= i < 16 ==>
      Identity().values[i] == if i % 5 == 0 then 1.0 else 0.0
  {
  }

  /**
   * `mat4x4.__add__`: a new list of pairwise sums built over `zip`, which
   * stops at the shorter operand.
   */
  method AddMatrices(a: Mat4x4, b: Mat4x4) returns (r: Mat4x4)
    ensures Len(r) == if Len(a) <= Len(b) then Len(a) else Len(b)
    ensures forall i :: 0 <= i < Len(r) ==> r.values[i] == a.values[i] + b.values[i]
  {
    var values: seq<real> := [];
    var n := if |a.values| <= |b.values| then |a.values| else |b.values|;
    var i := 0;
    while i < n
      invariant 0 <= i <= n
      invariant |values| == i
      invariant forall j :: 0 <= j < i ==> values[j] == a.values[j] + b.values[j]
    {
      values := values + [a.values[i] + b.values[i]];
      i := i + 1;
    }
    r := Mat4x4(values);
  }
}

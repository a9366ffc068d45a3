/**
 * The plane generator of plane.py: the `float_range` generator, and the
 * grid walk of `generate`, which lays vertices out row by row, marks every
 * vertex on a subdivision line (a "dot" where two lines cross, where a bone
 * is created; an "edge" vertex on one line) and joins each vertex to its
 * left, upper and upper-left neighbours by a quad face.
 *
 * The Blender calls are replaced by the values they are given: a vertex is
 * its grid position and coordinates, a bone its vertex, a face its four
 * corners in the order passed to `faces.new`.
 */
module Plane {
  import opened Wrappers
  import opened Utils

  // ---------------------------------------------------------------------
  // float_range

  /** The generator's arguments after defaulting. */
  datatype RangeArgs = RangeArgs(start: real, stop: real, step: real)

  /**
   * `float_range(*args)`: three or more arguments give start, stop and step
   * (the rest are ignored); two give start and stop with step 1; one gives
   * the stop with start 0 and step 1. Without arguments `args[0]` raises
   * IndexError (None).
   */
  function ParseArgs(args: seq<real>): (r: Option<RangeArgs>)
    ensures r.None? <==> args == []
    ensures r.Some? ==> r.value.stop == (if |args| == 1 then args[0] else args[1])
    ensures r.Some? ==> r.value.start == (if |args| == 1 then 0.0 else args[0])
    ensures r.Some? ==> r.value.step == (if |args| >= 3 then args[2] else 1.0)
  {
    if |args| >= 3 then Some(RangeArgs(args[0], args[1], args[2]))
    else if |args| == 2 then Some(RangeArgs(args[0], args[1], 1.0))
    else if |args| == 1 then Some(RangeArgs(0.0, args[0], 1.0))
    else None
  }

  /** The k-th value the generator yields (if it gets that far). */
  function Nth(a: RangeArgs, k: nat): real {
    a.start + (k as real) * a.step
  }

  /** How many values a range with a positive step yields: the least k with start + k*step >= stop. */
  function Count(a: RangeArgs): nat
    requires a.step > 0.0
  {
    if a.start >= a.stop then 0
    else
      var f := (-((a.stop - a.start) / a.step)).Floor;
      if f < 0 then -f else 0
  }

  lemma MulMonotone(u: real, v: real, s: real)
    requires u <= v && s > 0.0
    ensures u * s <= v * s
  {
    assert (v - u) * s >= 0.0;
  }

  lemma MulStrict(u: real, v: real, s: real)
    requires u < v && s > 0.0
    ensures u * s < v * s
  {
    assert (v - u) * s > 0.0;
  }

  lemma MulNonPositive(n: nat, s: real)
    requires s <= 0.0
    ensures (n as real) * s <= 0.0
  {
    assert (n as real) * (-s) >= 0.0;
  }

  /** Count is the first index at which the generator stops. */
  lemma CountIsFirstExit(a: RangeArgs)
    requires a.step > 0.0
    ensures Nth(a, Count(a)) >= a.stop
    ensures forall k: nat :: k < Count(a) ==> Nth(a, k) < a.stop
  {
    if a.start < a.stop {
      var d := (a.stop - a.start) / a.step;
      assert d * a.step == a.stop - a.start;
      assert d > 0.0 by {
        if d <= 0.0 {
          MulMonotone(d, 0.0, a.step);
        }
      }
      var f := (-d).Floor;
      assert (f as real) <= -d < (f as real) + 1.0;
      var c := Count(a);
      assert c == -f;
      MulMonotone(d, c as real, a.step);
      forall k: nat | k < c
        ensures Nth(a, k) < a.stop
      {
        MulStrict(k as real, d, a.step);
      }
    }
  }

  /**
   * Pull up to `demand` values from `float_range(*args)`. The body of the
   * generator, argument unpacking included, first runs on the first pull:
   * `error` is the IndexError that pull raises when there are no arguments,
   * and a generator never pulled raises nothing.
   */
  method FloatRange(args: seq<real>, demand: nat) returns (error: bool, values: seq<real>)
    ensures error <==> args == [] && demand > 0
    ensures args == [] ==> values == []
    ensures args != [] ==>
      var a := ParseArgs(args).value;
      |values| <= demand &&
      (forall k :: 0 <= k < |values| ==> values[k] == Nth(a, k) && values[k] < a.stop) &&
      (|values| < demand ==> Nth(a, |values|) >= a.stop)
    ensures args != [] && ParseArgs(args).value.step > 0.0 ==>
      |values| == if demand <= Count(ParseArgs(args).value) then demand else Count(ParseArgs(args).value)
    ensures args != [] && ParseArgs(args).value.step <= 0.0 && ParseArgs(args).value.start < ParseArgs(args).value.stop ==>
      |values| == demand
  {
    var start, stop, step;
    if |args| >= 3 {
      start, stop, step := args[0], args[1], args[2];
    } else if |args| == 2 {
      step := 1.0;
      start, stop := args[0], args[1];
    } else if |args| == 1 {
      step := 1.0;
      start := 0.0;
      stop := args[0];
    } else {
      return demand > 0, [];
    }
    ghost var a := RangeArgs(start, stop, step);
    assert a == ParseArgs(args).value;
    values := [];
    while start < stop && |values| < demand
      invariant |values| <= demand
      invariant start == Nth(a, |values|)
      invariant forall k :: 0 <= k < |values| ==> values[k] == Nth(a, k) && values[k] < stop
      decreases demand - |values|
    {
      values := values + [start];
      start := start + step;
    }
    error := false;
    if step > 0.0 {
      CountIsFirstExit(a);
    } else if a.start < a.stop {
      MulNonPositive(|values|, step);
    }
  }

  // ---------------------------------------------------------------------
  // The grid walk of generate

  /** A mesh vertex: its row and column index and its coordinates. */
  datatype Vertex = Vertex(row: nat, col: nat, x: real, y: real)

  /** The role the selection rule gives a vertex. */
  datatype Kind = Dot | Edge | Plain

  /** A bone: created at a dot vertex, from (x, y, 0) to (x, y, 1). */
  datatype Bone = Bone(index: nat, head: Vec3, tail: Vec3)

  /** A quad face by its corners, in the order given to `faces.new`. */
  datatype Face = Face(a: Vertex, b: Vertex, c: Vertex, d: Vertex)

  /** The grid's output. */
  datatype Grid = Grid(vertices: seq<seq<Vertex>>, kinds: seq<seq<Kind>>, bones: seq<Bone>, faces: seq<Face>)

  /** The vertex at (row, col); xs are the column coordinates, ys the row coordinates. */
  function At(xs: seq<real>, ys: seq<real>, row: nat, col: nat): Vertex
    requires row < |ys| && col < |xs|
  {
    Vertex(row, col, xs[col], ys[row])
  }

  /** The selection rule: on both subdivision lines a dot, on one an edge vertex, else plain. */
  function KindOf(row: nat, col: nat, sx: int, sy: int): Kind
    requires sx != 0 && sy != 0
  {
    if col % sx == 0 && row % sy == 0 then Dot
    else if col % sx == 0 || row % sy == 0 then Edge
    else Plain
  }

  /** The dot vertices of one row, up to column n. */
  function RowDots(xs: seq<real>, ys: seq<real>, row: nat, n: nat, sx: int, sy: int): seq<Vertex>
    requires sx != 0 && sy != 0 && row < |ys| && n <= |xs|
  {
    if n == 0 then []
    else RowDots(xs, ys, row, n - 1, sx, sy) +
         (if KindOf(row, n - 1, sx, sy) == Dot then [At(xs, ys, row, n - 1)] else [])
  }

  /** The dot vertices of the first m rows, row by row. */
  function GridDots(xs: seq<real>, ys: seq<real>, m: nat, sx: int, sy: int): seq<Vertex>
    requires sx != 0 && sy != 0 && m <= |ys|
  {
    if m == 0 then [] else GridDots(xs, ys, m - 1, sx, sy) + RowDots(xs, ys, m - 1, |xs|, sx, sy)
  }

  /** The face created at (row, col): upper-left, upper, this vertex, left. */
  function FaceAt(xs: seq<real>, ys: seq<real>, row: nat, col: nat): Face
    requires 0 < row < |ys| && 0 < col < |xs|
  {
    Face(At(xs, ys, row - 1, col - 1), At(xs, ys, row - 1, col), At(xs, ys, row, col), At(xs, ys, row, col - 1))
  }

  /** The faces of one row, up to column n. */
  function RowFaces(xs: seq<real>, ys: seq<real>, row: nat, n: nat): seq<Face>
    requires row < |ys| && n <= |xs|
  {
    if n == 0 then []
    else RowFaces(xs, ys, row, n - 1) + (if row > 0 && n - 1 > 0 then [FaceAt(xs, ys, row, n - 1)] else [])
  }

  /** The faces of the first m rows. */
  function GridFaces(xs: seq<real>, ys: seq<real>, m: nat): seq<Face>
    requires m <= |ys|
  {
    if m == 0 then [] else GridFaces(xs, ys, m - 1) + RowFaces(xs, ys, m - 1, |xs|)
  }

  /** The bones named 0, 1, 2, ... at the dots, in creation order. */
  function BonesAt(dots: seq<Vertex>): (r: seq<Bone>)
    ensures |r| == |dots|
    ensures forall i :: 0 <= i < |r| ==>
      r[i] == Bone(i, Vec3(dots[i].x, dots[i].y, 0.0), Vec3(dots[i].x, dots[i].y, 1.0))
  {
    seq(|dots|, i requires 0 <= i < |dots| => Bone(i, Vec3(dots[i].x, dots[i].y, 0.0), Vec3(dots[i].x, dots[i].y, 1.0)))
  }

  /** A vertex is a dot exactly on both subdivision lines, an edge vertex exactly on one. */
  lemma KindRule(row: nat, col: nat, sx: int, sy: int)
    requires sx != 0 && sy != 0
    ensures KindOf(row, col, sx, sy) == Dot <==> col % sx == 0 && row % sy == 0
    ensures KindOf(row, col, sx, sy) == Edge <==> (col % sx == 0) != (row % sy == 0)
    ensures KindOf(row, col, sx, sy) != Plain <==> col % sx == 0 || row % sy == 0
  {
  }

  /** The face a vertex past the first row and column creates, and only such a vertex. */
  predicate IsFaceOf(xs: seq<real>, ys: seq<real>, m: nat, n: nat, f: Face)
    requires m <= |ys| && n <= |xs|
  {
    0 < f.c.row < m && 0 < f.c.col < n && f == FaceAt(xs, ys, f.c.row, f.c.col)
  }

  /** Every face of a row is the face of one of its vertices past the first column. */
  lemma {:induction false} RowFacesSound(xs: seq<real>, ys: seq<real>, row: nat, n: nat, f: Face)
    requires row < |ys| && n <= |xs| && f in RowFaces(xs, ys, row, n)
    ensures IsFaceOf(xs, ys, row + 1, n, f) && f.c.row == row
    decreases n
  {
    if f !in RowFaces(xs, ys, row, n - 1) {
      assert f == FaceAt(xs, ys, row, n - 1);
    } else {
      RowFacesSound(xs, ys, row, n - 1, f);
    }
  }

  /** In a row past the first, the face of column col is the (col - 1)-th. */
  lemma {:induction false} RowFacesAt(xs: seq<real>, ys: seq<real>, row: nat, n: nat, col: nat)
    requires 0 < row < |ys| && 0 < col < n <= |xs|
    ensures |RowFaces(xs, ys, row, n)| == n - 1
    ensures RowFaces(xs, ys, row, n)[col - 1] == FaceAt(xs, ys, row, col)
    decreases n
  {
    RowFaceCount(xs, ys, row, n - 1);
    if col < n - 1 {
      RowFacesAt(xs, ys, row, n - 1, col);
    }
  }

  /** A row past the first has a face for every column but the first. */
  lemma {:induction false} RowFaceCount(xs: seq<real>, ys: seq<real>, row: nat, n: nat)
    requires row < |ys| && n <= |xs|
    ensures |RowFaces(xs, ys, row, n)| == if row > 0 && n > 0 then n - 1 else 0
    decreases n
  {
    if n > 0 {
      RowFaceCount(xs, ys, row, n - 1);
    }
  }

  /** Every face of the grid is the face of a vertex past the first row and column. */
  lemma {:induction false} GridFacesSound(xs: seq<real>, ys: seq<real>, m: nat, f: Face)
    requires m <= |ys| && f in GridFaces(xs, ys, m)
    ensures IsFaceOf(xs, ys, m, |xs|, f)
    decreases m
  {
    if f in GridFaces(xs, ys, m - 1) {
      GridFacesSound(xs, ys, m - 1, f);
    } else {
      RowFacesSound(xs, ys, m - 1, |xs|, f);
    }
  }

  /** The faces of the first rows come first: each row's faces extend the grid's. */
  lemma {:induction false} GridFacesPrefix(xs: seq<real>, ys: seq<real>, k: nat, m: nat)
    requires k <= m <= |ys|
    ensures |GridFaces(xs, ys, k)| <= |GridFaces(xs, ys, m)|
    ensures GridFaces(xs, ys, k) == GridFaces(xs, ys, m)[..|GridFaces(xs, ys, k)|]
    decreases m
  {
    if k < m {
      GridFacesPrefix(xs, ys, k, m - 1);
      var a, b := GridFaces(xs, ys, k), GridFaces(xs, ys, m - 1);
      assert GridFaces(xs, ys, m)[..|b|] == b;
      assert GridFaces(xs, ys, m)[..|a|] == b[..|a|];
    }
  }

  /**
   * The faces come in row-major order: the face of the vertex (row, col)
   * follows the faces of the rows before it, at column position col - 1.
   */
  lemma GridFaceIndex(xs: seq<real>, ys: seq<real>, m: nat, row: nat, col: nat)
    requires m <= |ys| && 0 < row < m && 0 < col < |xs|
    ensures |GridFaces(xs, ys, row)| + (col - 1) < |GridFaces(xs, ys, m)|
    ensures GridFaces(xs, ys, m)[|GridFaces(xs, ys, row)| + (col - 1)] == FaceAt(xs, ys, row, col)
  {
    var before, here := GridFaces(xs, ys, row), RowFaces(xs, ys, row, |xs|);
    var i := |before| + (col - 1);
    RowFacesAt(xs, ys, row, |xs|, col);
    assert GridFaces(xs, ys, row + 1) == before + here;
    assert (before + here)[i] == here[col - 1];
    GridFacesPrefix(xs, ys, row + 1, m);
    assert GridFaces(xs, ys, m)[i] == GridFaces(xs, ys, row + 1)[i];
  }

  /** The grid has (rows - 1) * (columns - 1) faces. */
  lemma {:induction false} GridFaceCount(xs: seq<real>, ys: seq<real>, m: nat)
    requires m <= |ys|
    ensures |GridFaces(xs, ys, m)| == if m > 0 && |xs| > 0 then (m - 1) * (|xs| - 1) else 0
    decreases m
  {
    if m > 0 {
      GridFaceCount(xs, ys, m - 1);
      RowFaceCount(xs, ys, m - 1, |xs|);
      if m - 1 > 0 && |xs| > 0 {
        var r, c := m - 2, |xs| - 1;
        MulSucc(r, c);
        assert |GridFaces(xs, ys, m)| == r * c + c;
      }
    }
  }

  /** How many of 0 .. n-1 are multiples of s. */
  function Multiples(n: nat, s: int): nat
    requires s != 0
  {
    if n == 0 then 0 else Multiples(n - 1, s) + (if (n - 1) % s == 0 then 1 else 0)
  }

  /** One in every |s| consecutive indices is a multiple: ceil(n / |s|) of the first n. */
  lemma {:induction false} MultiplesCount(n: nat, s: int)
    requires s != 0
    ensures Multiples(n, s) == (n + Abs(s) - 1) / Abs(s)
    decreases n
  {
    if n > 0 {
      MultiplesCount(n - 1, s);
      ModAbs(n - 1, s);
      CeilStep(n - 1, Abs(s));
    }
  }

  /** Moving the window by one raises ceil(m / t) exactly when t divides m. */
  lemma CeilStep(m: nat, t: int)
    requires t > 0
    ensures (m + t) / t == (m + t - 1) / t + (if m % t == 0 then 1 else 0)
  {
    var q, r := m / t, m % t;
    assert m == q * t + r;
    MulSucc(q, t);
    if r == 0 {
      DivOf(q, t, t - 1);
      DivOf(q + 1, t, 0);
    } else {
      DivOf(q + 1, t, r - 1);
      DivOf(q + 1, t, r);
    }
  }

  lemma ModAbs(n: int, s: int)
    requires s != 0
    ensures n % s == n % Abs(s)
  {
    if s < 0 {
      assert n % s == n % (-s);
    }
  }

  function Abs(s: int): nat {
    if s < 0 then -s else s
  }

  lemma MulNonNegative(u: int, v: int)
    requires u >= 0 && v >= 0
    ensures u * v >= 0
  {
  }

  /** Division undoes multiplication: the quotient of q*t + r by t is q. */
  lemma DivOf(q: int, t: int, r: int)
    requires t > 0 && 0 <= r < t
    ensures (q * t + r) / t == q
  {
    var n := q * t + r;
    var q2, r2 := n / t, n % t;
    assert n == q2 * t + r2 && 0 <= r2 < t;
    if q2 > q {
      MulNonNegative(q2 - q - 1, t);
    } else if q2 < q {
      MulNonNegative(q - q2 - 1, t);
    }
  }

  lemma MulSucc(u: int, v: int)
    ensures (u + 1) * v == u * v + v
  {
  }

  /** The dots of one row: one per multiple of sx when the row is a multiple of sy, none otherwise. */
  lemma {:induction false} RowDotCount(xs: seq<real>, ys: seq<real>, row: nat, n: nat, sx: int, sy: int)
    requires sx != 0 && sy != 0 && row < |ys| && n <= |xs|
    ensures |RowDots(xs, ys, row, n, sx, sy)| == if row % sy == 0 then Multiples(n, sx) else 0
    decreases n
  {
    if n > 0 {
      RowDotCount(xs, ys, row, n - 1, sx, sy);
    }
  }

  /**
   * The number of bones: ceil(rows / |sy|) * ceil(columns / |sx|), one for
   * every crossing of a row line and a column line.
   */
  lemma {:induction false} BoneCount(xs: seq<real>, ys: seq<real>, m: nat, sx: int, sy: int)
    requires sx != 0 && sy != 0 && m <= |ys|
    ensures |GridDots(xs, ys, m, sx, sy)| == Multiples(m, sy) * Multiples(|xs|, sx)
    ensures |GridDots(xs, ys, m, sx, sy)| ==
            ((m + Abs(sy) - 1) / Abs(sy)) * ((|xs| + Abs(sx) - 1) / Abs(sx))
    decreases m
  {
    if m > 0 {
      BoneCount(xs, ys, m - 1, sx, sy);
      RowDotCount(xs, ys, m - 1, |xs|, sx, sy);
      var c := Multiples(|xs|, sx);
      if (m - 1) % sy == 0 {
        assert Multiples(m, sy) == Multiples(m - 1, sy) + 1;
        MulSucc(Multiples(m - 1, sy), c);
      }
    }
    MultiplesCount(m, sy);
    MultiplesCount(|xs|, sx);
  }

  /**
   * One row of the grid walk: the row's vertices and their kinds, its dots
   * appended to `dots` and its faces (against the previous row) to `faces`.
   */
  method WalkRow(xs: seq<real>, ys: seq<real>, rowI: nat, sx: int, sy: int, prevRow: seq<Vertex>,
                 dots0: seq<Vertex>, faces0: seq<Face>)
    returns (currRow: seq<Vertex>, currKinds: seq<Kind>, dots: seq<Vertex>, faces: seq<Face>)
    requires sx != 0 && sy != 0 && rowI < |ys|
    requires rowI > 0 ==> |prevRow| == |xs| && forall j :: 0 <= j < |xs| ==> prevRow[j] == At(xs, ys, rowI - 1, j)
    ensures |currRow| == |xs| && |currKinds| == |xs|
    ensures forall j :: 0 <= j < |xs| ==> currRow[j] == At(xs, ys, rowI, j) && currKinds[j] == KindOf(rowI, j, sx, sy)
    ensures dots == dots0 + RowDots(xs, ys, rowI, |xs|, sx, sy)
    ensures faces == faces0 + RowFaces(xs, ys, rowI, |xs|)
  {
    dots, faces := dots0, faces0;
    var y := ys[rowI];
    currRow, currKinds := [], [];
    var prevVert: Vertex := Vertex(0, 0, 0.0, 0.0);
    var colI := 0;
    while colI < |xs|
      invariant 0 <= colI <= |xs|
      invariant |currRow| == colI && |currKinds| == colI
      invariant forall j :: 0 <= j < colI ==> currRow[j] == At(xs, ys, rowI, j) && currKinds[j] == KindOf(rowI, j, sx, sy)
      invariant colI > 0 ==> prevVert == At(xs, ys, rowI, colI - 1)
      invariant dots == dots0 + RowDots(xs, ys, rowI, colI, sx, sy)
      invariant faces == faces0 + RowFaces(xs, ys, rowI, colI)
    {
      var currVert := Vertex(rowI, colI, xs[colI], y);
      var kind;
      if colI % sx == 0 && rowI % sy == 0 {
        kind := Dot;
        dots := dots + [currVert];
      } else if colI % sx == 0 || rowI % sy == 0 {
        kind := Edge;
      } else {
        kind := Plain;
      }
      if colI > 0 && rowI > 0 {
        faces := faces + [Face(prevRow[colI - 1], prevRow[colI], currVert, prevVert)];
      }
      prevVert := currVert;
      currRow := currRow + [currVert];
      currKinds := currKinds + [kind];
      colI := colI + 1;
    }
  }

  /**
   * The grid walk of `generate` over the row coordinates `ys` and the column
   * coordinates `xs` (the values of the two `float_range` calls). A zero
   * subdivision level is the ZeroDivisionError of the step computation,
   * raised before any vertex exists (None).
   */
  method GenerateGrid(xs: seq<real>, ys: seq<real>, sx: int, sy: int) returns (r: Option<Grid>)
    ensures r.None? <==> sx == 0 || sy == 0
    ensures r.Some? ==>
      var g := r.value;
      |g.vertices| == |ys| && |g.kinds| == |ys| &&
      (forall i :: 0 <= i < |ys| ==> |g.vertices[i]| == |xs| && |g.kinds[i]| == |xs|) &&
      (forall i, j :: 0 <= i < |ys| && 0 <= j < |xs| ==>
         g.vertices[i][j] == At(xs, ys, i, j) && g.kinds[i][j] == KindOf(i, j, sx, sy)) &&
      g.bones == BonesAt(GridDots(xs, ys, |ys|, sx, sy)) &&
      g.faces == GridFaces(xs, ys, |ys|)
  {
    if sx == 0 || sy == 0 {
      return None;
    }
    var vertices: seq<seq<Vertex>> := [];
    var kinds: seq<seq<Kind>> := [];
    var dots: seq<Vertex> := [];
    var faces: seq<Face> := [];
    var prevRow: seq<Vertex> := [];
    var rowI := 0;
    while rowI < |ys|
      invariant 0 <= rowI <= |ys|
      invariant |vertices| == rowI && |kinds| == rowI
      invariant forall i :: 0 <= i < rowI ==> |vertices[i]| == |xs| && |kinds[i]| == |xs|
      invariant forall i, j :: 0 <= i < rowI && 0 <= j < |xs| ==>
                  vertices[i][j] == At(xs, ys, i, j) && kinds[i][j] == KindOf(i, j, sx, sy)
      invariant rowI > 0 ==> prevRow == vertices[rowI - 1]
      invariant dots == GridDots(xs, ys, rowI, sx, sy)
      invariant faces == GridFaces(xs, ys, rowI)
    {
      var currRow, currKinds;
      currRow, currKinds, dots, faces := WalkRow(xs, ys, rowI, sx, sy, prevRow, dots, faces);
      prevRow := currRow;
      vertices := vertices + [currRow];
      kinds := kinds + [currKinds];
      rowI := rowI + 1;
    }
    r := Some(Grid(vertices, kinds, BonesAt(dots), faces));
  }
}

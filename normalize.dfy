/**
 * Point normalisation (`normalize_point` and `make_normalize_point_compiled`): coordinates on
 * periodic axes are wrapped into the axis range, coordinates on the other axes are optionally
 * reflected off the boundaries into it.
 */
module Normalize {
  import opened Wrappers
  import opened Grids

  lemma MulLeft(a: real, b: real, m: real)
    requires m > 0.0
    ensures a <= b ==> a * m <= b * m
    ensures a < b ==> a * m < b * m
  {
    if a < b {
      assert (b - a) * m > 0.0;
    }
  }

  lemma Distrib(a: real, b: real, m: real)
    ensures (a + b) * m == a * m + b * m
  {
  }

  /** A quotient is determined by the product it came from. */
  lemma DivOfProduct(a: real, b: real, m: real)
    requires m != 0.0 && a == b * m
    ensures a / m == b
  {
  }

  /** Scaling `q <= x / m < q + 1` by `m`. */
  lemma FloorTimesLow(x: real, m: real, y: real, q: real)
    requires m > 0.0 && y * m == x && q <= y
    ensures q * m <= x
  {
    MulLeft(q, y, m);
  }

  lemma FloorTimesHigh(x: real, m: real, y: real, q: real)
    requires m > 0.0 && y * m == x && y < q + 1.0
    ensures x < q * m + m
  {
    MulLeft(y, q + 1.0, m);
    Distrib(q, 1.0, m);
  }

  /** The floor of `y` is the one integer `f` with `f <= y < f + 1`. */
  lemma FloorUnique(y: real, f: int)
    requires f as real <= y < f as real + 1.0
    ensures y.Floor == f
  {
  }

  /** Python's float `x % m` for `m > 0`: the remainder has the sign of `m`. */
  function PyMod(x: real, m: real): (r: real)
    requires m > 0.0
    ensures 0.0 <= r < m
  {
    var y := x / m;
    var q := y.Floor;
    FloorTimesLow(x, m, y, q as real);
    FloorTimesHigh(x, m, y, q as real);
    x - q as real * m
  }

  /** `PyMod` is `x - q * m` for the one integer `q` that puts the result in `[0, m)`. */
  lemma PyModUnique(x: real, m: real, q: int)
    requires m > 0.0 && q as real * m <= x < q as real * m + m
    ensures PyMod(x, m) == x - q as real * m
  {
    var y := x / m;
    assert y * m == x;
    Unscale(x, m, y, q as real);
    FloorUnique(y, q);
  }

  /** Dividing `q * m <= x < q * m + m` by `m`. */
  lemma Unscale(x: real, m: real, y: real, q: real)
    requires m > 0.0 && y * m == x && q * m <= x < q * m + m
    ensures q <= y < q + 1.0
  {
    MulLeft(y, q, m);
    MulLeft(q + 1.0, y, m);
    Distrib(q, 1.0, m);
  }

  lemma PyModArgs(a: real, b: real, m: real)
    requires m > 0.0 && a == b
    ensures PyMod(a, m) == PyMod(b, m)
  {
  }

  /** A remainder already in `[0, m)` is returned unchanged. */
  lemma PyModOfInRange(x: real, m: real)
    requires m > 0.0 && 0.0 <= x < m
    ensures PyMod(x, m) == x
  {
    PyModUnique(x, m, 0);
  }

  /** Adding a whole number of periods does not change the remainder. */
  lemma PyModShift(x: real, m: real, k: int)
    requires m > 0.0
    ensures PyMod(x + k as real * m, m) == PyMod(x, m)
  {
    var q := (x / m).Floor;
    var u := PyMod(x, m);
    assert x == q as real * m + u;
    Distrib(q as real, k as real, m);
    Distrib(q as real + k as real, 1.0, m);
    PyModUnique(x + k as real * m, m, q + k);
  }

  /** The remainder of `-x` complements that of `x` to a full period. */
  lemma PyModNeg(x: real, m: real)
    requires m > 0.0
    ensures PyMod(-x, m) == if PyMod(x, m) == 0.0 then 0.0 else m - PyMod(x, m)
  {
    var q := (x / m).Floor;
    var u := PyMod(x, m);
    assert x == q as real * m + u;
    var qm := q as real * m;
    NegMul(q as real, m);
    assert (-q) as real * m == -qm;
    if u == 0.0 {
      PyModUnique(-x, m, -q);
      assert PyMod(-x, m) == -x + qm;
    } else {
      Distrib(-q as real, -1.0, m);
      assert (-q - 1) as real * m == -qm - m;
      PyModUnique(-x, m, -q - 1);
      assert PyMod(-x, m) == -x + qm + m;
    }
  }

  lemma NegMul(a: real, m: real)
    ensures (-a) * m == -(a * m)
  {
  }

  /**
   * One coordinate of `normalize_point`: wrapped into `[lo, hi)` on a periodic axis,
   * reflected into `[lo, hi]` on another axis when `reflect` is set, otherwise unchanged.
   */
  function NormalizeCoord(x: real, b: Bounds, periodic: bool, reflect: bool): real
    requires b.lo < b.hi
  {
    var size := b.hi - b.lo;
    if periodic then PyMod(x - b.lo, size) + b.lo
    else if reflect then
      b.lo + Abs(PyMod(x - b.hi, 2.0 * size) - size)
    else x
  }

  function Abs(x: real): real {
    if x < 0.0 then -x else x
  }

  /** Where a normalised coordinate lies. */
  lemma NormalizeCoordRange(x: real, b: Bounds, periodic: bool, reflect: bool)
    requires b.lo < b.hi
    ensures var r := NormalizeCoord(x, b, periodic, reflect);
            && (periodic ==> b.lo <= r < b.hi)
            && (!periodic && reflect ==> b.lo <= r <= b.hi)
            && (!periodic && !reflect ==> r == x)
  {
  }

  /** A coordinate that already lies in the target range is left unchanged. */
  lemma NormalizeCoordInside(x: real, b: Bounds, periodic: bool, reflect: bool)
    requires b.lo < b.hi
    requires periodic ==> b.lo <= x < b.hi
    requires !periodic ==> b.lo <= x <= b.hi
    ensures NormalizeCoord(x, b, periodic, reflect) == x
  {
    var size := b.hi - b.lo;
    if periodic {
      PyModOfInRange(x - b.lo, size);
    } else if reflect {
      if x == b.hi {
        PyModOfInRange(0.0, 2.0 * size);
      } else {
        assert x - b.hi == (x - b.hi + 2.0 * size) + (-1) as real * (2.0 * size);
        PyModShift(x - b.hi + 2.0 * size, 2.0 * size, -1);
        PyModOfInRange(x - b.hi + 2.0 * size, 2.0 * size);
      }
    }
  }

  /** Normalising twice is the same as normalising once. */
  lemma NormalizeCoordIdempotent(x: real, b: Bounds, periodic: bool, reflect: bool)
    requires b.lo < b.hi
    ensures var r := NormalizeCoord(x, b, periodic, reflect);
            NormalizeCoord(r, b, periodic, reflect) == r
  {
    var r := NormalizeCoord(x, b, periodic, reflect);
    NormalizeCoordRange(x, b, periodic, reflect);
    if periodic || reflect {
      NormalizeCoordInside(r, b, periodic, reflect);
    }
  }

  /** On a periodic axis, coordinates a whole number of periods apart normalise alike. */
  lemma NormalizePeriodicShift(x: real, b: Bounds, k: int, reflect: bool)
    requires b.lo < b.hi
    ensures NormalizeCoord(x + k as real * (b.hi - b.lo), b, true, reflect)
            == NormalizeCoord(x, b, true, reflect)
  {
    var size := b.hi - b.lo;
    var y := x + k as real * size;
    PyModShift(x - b.lo, size, k);
    PyModArgs(y - b.lo, (x - b.lo) + k as real * size, size);
    assert NormalizeCoord(y, b, true, reflect) == NormalizeCoord(x, b, true, reflect);
    assert y == x + k as real * (b.hi - b.lo);
  }

  /** On a reflected axis, a coordinate and its mirror image in the upper boundary normalise alike. */
  lemma NormalizeReflectUpper(x: real, b: Bounds)
    requires b.lo < b.hi
    ensures NormalizeCoord(2.0 * b.hi - x, b, false, true) == NormalizeCoord(x, b, false, true)
  {
    var m := 2.0 * (b.hi - b.lo);
    PyModNeg(x - b.hi, m);
    assert 2.0 * b.hi - x - b.hi == -(x - b.hi);
  }

  /** On a reflected axis, a coordinate and its mirror image in the lower boundary normalise alike. */
  lemma NormalizeReflectLower(x: real, b: Bounds)
    requires b.lo < b.hi
    ensures NormalizeCoord(2.0 * b.lo - x, b, false, true) == NormalizeCoord(x, b, false, true)
  {
    var m := 2.0 * (b.hi - b.lo);
    PyModNeg(x - b.hi, m);
    assert 2.0 * b.lo - x - b.hi == -(x - b.hi) + (-1) as real * m;
    PyModShift(-(x - b.hi), m, -1);
  }

  /** On a reflected axis, coordinates two axis lengths apart normalise alike. */
  lemma NormalizeReflectPeriod(x: real, b: Bounds, k: int)
    requires b.lo < b.hi
    ensures NormalizeCoord(x + k as real * (2.0 * (b.hi - b.lo)), b, false, true)
            == NormalizeCoord(x, b, false, true)
  {
    var m := 2.0 * (b.hi - b.lo);
    var y := x + k as real * m;
    PyModShift(x - b.hi, m, k);
    PyModArgs(y - b.hi, (x - b.hi) + k as real * m, m);
    assert NormalizeCoord(y, b, false, true) == NormalizeCoord(x, b, false, true);
    assert y == x + k as real * (2.0 * (b.hi - b.lo));
  }

  // ---------------------------------------------------------------------------------------
  // normalize_point

  /** The coordinates of one point, normalised axis by axis. */
  function NormalizeRow(g: Grid, row: seq<real>, reflect: bool): (r: seq<real>)
    requires g.Valid() && |row| == g.NumAxes()
    ensures |r| == |row|
  {
    seq(|row|, i requires 0 <= i < |row| =>
      NormalizeCoord(row[i], g.axesBounds[i], g.periodic[i], reflect))
  }

  /**
   * What `normalize_point` receives: a single number (a zero-dimensional array), or an array
   * whose last axis of length `width` holds coordinates, its leading axes flattened into rows.
   */
  datatype PointArg = Scalar(x: real) | Points(rows: seq<seq<real>>, width: nat)

  predicate WellFormed(p: PointArg) {
    p.Points? ==> forall k :: 0 <= k < |p.rows| ==> |p.rows[k]| == p.width
  }

  /**
   * `normalize_point`: an empty array gives an empty array of points; a single number needs
   * a one-axis grid and an array a last axis of length `num_axes`, else a DimensionError.
   */
  function NormalizePoint(g: Grid, p: PointArg, reflect: bool): (r: Result<PointArg>)
    requires g.Valid() && WellFormed(p)
    ensures r.Err? <==> (p.Scalar? && g.NumAxes() > 1)
                        || (p.Points? && |p.rows| > 0 && p.width > 0 && p.width != g.NumAxes())
    ensures r.Err? ==> r.error == DimensionError
    ensures r.Ok? && p.Points? && (|p.rows| == 0 || p.width == 0) ==> r.value == Points([], g.NumAxes())
    ensures r.Ok? ==> WellFormed(r.value) && r.value.Scalar? == p.Scalar?
    ensures r.Ok? && p.Points? ==> |r.value.rows| <= |p.rows| && r.value.width == g.NumAxes()
  {
    match p
    case Scalar(x) =>
      if g.NumAxes() > 1 then Err(DimensionError)
      else Ok(Scalar(NormalizeCoord(x, g.axesBounds[0], g.periodic[0], reflect)))
    case Points(rows, width) =>
      if |rows| == 0 || width == 0 then Ok(Points([], g.NumAxes()))
      else if width != g.NumAxes() then Err(DimensionError)
      else Ok(Points(seq(|rows|, k requires 0 <= k < |rows| => NormalizeRow(g, rows[k], reflect)),
                     width))
  }

  /** The points held by a two-axis array, one row per point. */
  function Rows(pts: array2<real>): (r: seq<seq<real>>)
    reads pts
    ensures |r| == pts.Length0
    ensures forall k :: 0 <= k < |r| ==> |r[k]| == pts.Length1
  {
    seq(pts.Length0, k requires 0 <= k < pts.Length0 reads pts =>
      seq(pts.Length1, j requires 0 <= j < pts.Length1 reads pts => pts[k, j]))
  }

  /**
   * `normalize_point` called with an array that already holds doubles: `numpy.asarray`
   * returns the caller's array itself, so on a grid of several axes the assignments to
   * `point[..., i]` rewrite the caller's coordinates, column by column, and the array
   * returned is that same array. On one axis the result is a new array and the caller's
   * array keeps its values; an empty array or a DimensionError leaves it untouched.
   */
  method NormalizePointArray(g: Grid, pts: array2<real>, reflect: bool) returns (r: Result<PointArg>)
    requires g.Valid()
    modifies pts
    ensures r == NormalizePoint(g, Points(old(Rows(pts)), pts.Length1), reflect)
    ensures if r.Ok? && g.NumAxes() > 1 && pts.Length0 > 0 && pts.Length1 > 0
            then Rows(pts) == r.value.rows
            else Rows(pts) == old(Rows(pts))
  {
    ghost var before := Rows(pts);
    var rows, width := pts.Length0, pts.Length1;
    if rows == 0 || width == 0 {
      return Ok(Points([], g.NumAxes()));
    }
    if width != g.NumAxes() {
      return Err(DimensionError);
    }
    if g.NumAxes() == 1 {
      return NormalizePoint(g, Points(Rows(pts), width), reflect);
    }
    for i := 0 to width
      invariant forall k, j :: 0 <= k < rows && 0 <= j < width ==>
                  pts[k, j] == if j < i then NormalizeCoord(before[k][j], g.axesBounds[j],
                                                            g.periodic[j], reflect)
                               else before[k][j]
    {
      NormalizeColumn(pts, i, g.axesBounds[i], g.periodic[i], reflect);
    }
    forall k | 0 <= k < rows
      ensures Rows(pts)[k] == NormalizeRow(g, before[k], reflect)
    {
      assert forall j :: 0 <= j < width ==> Rows(pts)[k][j] == pts[k, j];
    }
    assert Rows(pts) == seq(rows, k requires 0 <= k < rows => NormalizeRow(g, before[k], reflect));
    r := Ok(Points(Rows(pts), width));
  }

  /** `point[..., i] = …`: the coordinates of axis `i` of every point, normalised. */
  method NormalizeColumn(pts: array2<real>, i: nat, b: Bounds, periodic: bool, reflect: bool)
    requires i < pts.Length1 && b.lo < b.hi
    modifies pts
    ensures forall k, j :: 0 <= k < pts.Length0 && 0 <= j < pts.Length1 ==>
              pts[k, j] == if j == i then NormalizeCoord(old(pts[k, j]), b, periodic, reflect)
                           else old(pts[k, j])
  {
    var size := b.hi - b.lo;
    for k := 0 to pts.Length0
      invariant forall k', j :: 0 <= k' < pts.Length0 && 0 <= j < pts.Length1 ==>
                  pts[k', j] == if j == i && k' < k
                                then NormalizeCoord(old(pts[k', j]), b, periodic, reflect)
                                else old(pts[k', j])
    {
      if periodic {
        pts[k, i] := PyMod(pts[k, i] - b.lo, size) + b.lo;
      } else if reflect {
        var arg := PyMod(pts[k, i] - b.hi, 2.0 * size) - size;
        pts[k, i] := b.lo + Abs(arg);
      }
    }
  }

  /** Every coordinate of a normalised point lies in the range of its axis. */
  lemma NormalizePointInDomain(g: Grid, p: PointArg, reflect: bool, k: nat, i: nat)
    requires g.Valid() && WellFormed(p) && NormalizePoint(g, p, reflect).Ok?
    requires p.Points? && k < |NormalizePoint(g, p, reflect).value.rows| && i < g.NumAxes()
    ensures var x := NormalizePoint(g, p, reflect).value.rows[k][i];
            var b := g.axesBounds[i];
            && (g.periodic[i] ==> b.lo <= x < b.hi)
            && (!g.periodic[i] && reflect ==> b.lo <= x <= b.hi)
            && (!g.periodic[i] && !reflect ==> x == p.rows[k][i])
  {
    NormalizeCoordRange(p.rows[k][i], g.axesBounds[i], g.periodic[i], reflect);
  }

  /** Normalising an already normalised point changes nothing. */
  lemma NormalizePointIdempotent(g: Grid, p: PointArg, reflect: bool)
    requires g.Valid() && WellFormed(p) && NormalizePoint(g, p, reflect).Ok?
    ensures var q := NormalizePoint(g, p, reflect).value;
            NormalizePoint(g, q, reflect) == Ok(q)
  {
    var q := NormalizePoint(g, p, reflect).value;
    match p
    case Scalar(x) =>
      NormalizeCoordIdempotent(x, g.axesBounds[0], g.periodic[0], reflect);
    case Points(rows, width) =>
      if |rows| > 0 && width > 0 {
        forall k | 0 <= k < |q.rows|
          ensures NormalizeRow(g, q.rows[k], reflect) == q.rows[k]
        {
          forall i | 0 <= i < g.NumAxes()
            ensures NormalizeRow(g, q.rows[k], reflect)[i] == q.rows[k][i]
          {
            NormalizeCoordIdempotent(rows[k][i], g.axesBounds[i], g.periodic[i], reflect);
          }
        }
        assert seq(|q.rows|, k requires 0 <= k < |q.rows| => NormalizeRow(g, q.rows[k], reflect))
               == q.rows;
      }
  }

  /**
   * The function returned by `make_normalize_point_compiled(reflect)`, applied to one point:
   * it rewrites the coordinates in place, axis by axis.
   */
  method NormalizePointInPlace(g: Grid, reflect: bool, point: array<real>)
    requires g.Valid() && point.Length == g.NumAxes()
    modifies point
    ensures point[..] == NormalizeRow(g, old(point[..]), reflect)
  {
    ghost var before := point[..];
    var i := 0;
    while i < g.NumAxes()
      invariant 0 <= i <= g.NumAxes()
      invariant forall j :: 0 <= j < i ==> point[j] == NormalizeRow(g, before, reflect)[j]
      invariant forall j :: i <= j < point.Length ==> point[j] == before[j]
    {
      var b := g.axesBounds[i];
      var size := b.hi - b.lo;
      if g.periodic[i] {
        point[i] := PyMod(point[i] - b.lo, size) + b.lo;
      } else if reflect {
        var arg := PyMod(point[i] - b.hi, 2.0 * size) - size;
        point[i] := b.lo + (if arg < 0.0 then -arg else arg);
      }
      i := i + 1;
    }
  }

  /** The compiled normaliser agrees with `normalize_point` on a single point. */
  lemma NormalizeRowIsNormalizePoint(g: Grid, row: seq<real>, reflect: bool)
    requires g.Valid() && |row| == g.NumAxes()
    ensures NormalizePoint(g, Points([row], |row|), reflect)
            == Ok(Points([NormalizeRow(g, row, reflect)], |row|))
  {
    assert seq(1, k requires 0 <= k < 1 => NormalizeRow(g, [row][k], reflect))
           == [NormalizeRow(g, row, reflect)];
  }
}

/**
 * The interpolators built by `_make_interpolator_full_compiled`: linear interpolation of data
 * given on the full grid (valid cells plus one ghost cell at each end of every axis) at one
 * point, specialised for one, two and three axes.
 */
module Interpolation {
  import opened Wrappers
  import opened Grids

  /** `divmod(t, 1.0)`: `t` rounded down, and the fraction left over. */
  function DivMod1(t: real): (r: (int, real))
    ensures r.0 as real + r.1 == t && 0.0 <= r.1 < 1.0
  {
    (t.Floor, t - t.Floor as real)
  }

  /** Where along axis `a` a coordinate lies, in units of cells with centres at whole numbers. */
  function CellCoord(g: Grid, a: nat, x: real, cellCoords: bool): real
    requires g.Valid() && a < g.NumAxes()
  {
    if cellCoords then x else (x - g.axesBounds[a].lo) / g.discretization[a] - 0.5
  }

  /** The lower neighbouring cell along every axis (`c_l`). */
  function Floors(g: Grid, point: seq<real>, cellCoords: bool): (c: seq<int>)
    requires g.Valid() && |point| == g.NumAxes()
    ensures |c| == |point|
  {
    seq(|point|, a requires 0 <= a < |point| => DivMod1(CellCoord(g, a, point[a], cellCoords)).0)
  }

  /** The fractional distance from the lower neighbouring cell along every axis (`d_l`). */
  function Fracs(g: Grid, point: seq<real>, cellCoords: bool): (d: seq<real>)
    requires g.Valid() && |point| == g.NumAxes()
    ensures |d| == |point| && forall a :: 0 <= a < |point| ==> 0.0 <= d[a] < 1.0
  {
    seq(|point|, a requires 0 <= a < |point| => DivMod1(CellCoord(g, a, point[a], cellCoords)).1)
  }

  /** The weight `(1 - d_l, d_l)[b]` of the lower (`b == 0`) or upper neighbour. */
  function Weight(d: real, b: int): (w: real)
    requires 0.0 <= d < 1.0
    ensures 0.0 <= w <= 1.0
  {
    if b == 0 then 1.0 - d else d
  }

  /**
   * Where cell index `c` falls along axis `a`: wrapped into the grid on a periodic axis,
   * otherwise a valid cell, a ghost cell (`-1` or `size`), or outside the domain.
   */
  datatype Place = Interior(idx: int) | Boundary(idx: int) | Outside

  function PlaceOf(g: Grid, a: nat, c: int): (p: Place)
    requires g.Valid() && a < g.NumAxes()
    ensures p.Interior? ==> 0 <= p.idx < g.shape[a]
    ensures p.Boundary? ==> !g.periodic[a] && (p.idx == -1 || p.idx == g.shape[a])
    ensures p.Outside? <==> !g.periodic[a] && (c < -1 || c > g.shape[a])
    ensures !g.periodic[a] && !p.Outside? ==> p.idx == c
  {
    if g.periodic[a] then Interior(Wrap(c, g.shape[a]))
    else if c == -1 || c == g.shape[a] then Boundary(c)
    else if c < -1 || c > g.shape[a] then Outside
    else Interior(c)
  }

  /** Python's `c % size` for a positive `size`, written as repeated steps of `size`. */
  function Wrap(c: int, size: int): (r: int)
    requires size > 0
    ensures 0 <= r < size
    decreases if c < 0 then size - c else c
  {
    if c < 0 then Wrap(c + size, size)
    else if c >= size then Wrap(c - size, size)
    else c
  }

  lemma {:induction false} WrapMod(c: int, size: int)
    requires size > 0
    ensures Wrap(c, size) == c % size
    decreases if c < 0 then size - c else c
  {
    if c < 0 {
      WrapMod(c + size, size);
      ModShift(c, 1, size);
    } else if c >= size {
      WrapMod(c - size, size);
      ModShift(c - size, 1, size);
    }
  }

  /** A value to return when the point lies outside the grid: `fill`, or a DomainError. */
  function FillOr(fill: Option<real>): Result<real> {
    if fill.None? then Err(DomainError) else Ok(fill.value)
  }

  /** Whether `v` lies between `a` and `b`. */
  predicate Between(v: real, a: real, b: real) {
    (a <= v <= b) || (b <= v <= a)
  }

  lemma MulNonneg(a: real, b: real)
    requires a >= 0.0 && b >= 0.0
    ensures a * b >= 0.0
  {
  }

  /** `(1 - d) * a + d * b` moves from `a` to `b` by the fraction `d`. */
  lemma ConvexForms(a: real, b: real, d: real)
    ensures (1.0 - d) * a + d * b == a + d * (b - a)
    ensures (1.0 - d) * a + d * b == b - (1.0 - d) * (b - a)
  {
  }

  lemma ConvexBetween(a: real, b: real, d: real)
    requires 0.0 <= d <= 1.0
    ensures Between((1.0 - d) * a + d * b, a, b)
  {
    ConvexForms(a, b, d);
    if a <= b {
      MulNonneg(d, b - a);
      MulNonneg(1.0 - d, b - a);
    } else {
      MulNonneg(d, a - b);
      MulNonneg(1.0 - d, a - b);
      assert d * (b - a) == -(d * (a - b));
      assert (1.0 - d) * (b - a) == -((1.0 - d) * (a - b));
    }
  }

  /** What the interpolators require of the grid and the point. */
  predicate PointFits(g: Grid, n: nat, point: seq<real>) {
    g.Valid() && g.NumAxes() == n && |point| == n
  }

  // ---------------------------------------------------------------------------------------
  // One axis

  /**
   * The one-axis interpolator at cell coordinate `t` on an axis of `size` cells: the two
   * cells around the point, wrapped on a periodic axis; on another axis a point more than one
   * cell beyond the valid cells gives `fill` or a DomainError.
   */
  function Interpolate1At(size: nat, periodic: bool, data: seq<real>, t: real,
                          fill: Option<real>): Result<real>
    requires size >= 1 && |data| == size + 2
  {
    var cd := DivMod1(t);
    var c := cd.0;
    var d := cd.1;
    if periodic then
      var li := c % size;
      var hi := (li + 1) % size;
      Ok((1.0 - d) * data[li + 1] + d * data[hi + 1])
    else if c < -1 || c > size - 1 then FillOr(fill)
    else Ok((1.0 - d) * data[c + 1] + d * data[c + 2])
  }

  /** The function the one-axis specialisation returns, applied to the point `x`. */
  function Interpolate1(g: Grid, data: seq<real>, x: real, fill: Option<real>,
                        cellCoords: bool): (r: Result<real>)
    requires PointFits(g, 1, [x]) && |data| == g.shape[0] + 2
    ensures r.Err? ==> fill.None? && r.error == DomainError
    ensures g.periodic[0] ==> r.Ok?
  {
    Interpolate1At(g.shape[0], g.periodic[0], data, CellCoord(g, 0, x, cellCoords), fill)
  }

  /**
   * Off a periodic axis the point is outside exactly when its cell coordinate is below -1
   * or at least `size`; otherwise the result lies between the two entries around it, both
   * within the full data `0 .. size + 1`.
   */
  lemma Interpolate1Domain(size: nat, data: seq<real>, t: real, fill: Option<real>)
    requires size >= 1 && |data| == size + 2
    ensures var c := t.Floor;
            var r := Interpolate1At(size, false, data, t, fill);
            && ((t < -1.0 || t >= size as real) ==> r == FillOr(fill))
            && (-1.0 <= t < size as real ==>
                  0 <= c + 1 && c + 2 <= size + 1 && r.Ok?
                  && Between(r.value, data[c + 1], data[c + 2]))
  {
    var c := t.Floor;
    if -1.0 <= t < size as real {
      ConvexBetween(data[c + 1], data[c + 2], t - c as real);
    }
  }

  /** On a periodic axis there is always a result, between the two wrapped neighbours. */
  lemma Interpolate1Periodic(size: nat, data: seq<real>, t: real, fill: Option<real>)
    requires size >= 1 && |data| == size + 2
    ensures var li := t.Floor % size;
            var hi := (li + 1) % size;
            var r := Interpolate1At(size, true, data, t, fill);
            && 0 <= li < size && 0 <= hi < size
            && r.Ok? && Between(r.value, data[li + 1], data[hi + 1])
  {
    var li := t.Floor % size;
    var hi := (li + 1) % size;
    ConvexBetween(data[li + 1], data[hi + 1], t - t.Floor as real);
  }

  /** At the centre of a valid cell the interpolator returns that cell's value. */
  lemma Interpolate1AtCentre(size: nat, periodic: bool, data: seq<real>, m: nat,
                             fill: Option<real>)
    requires size >= 1 && |data| == size + 2 && m < size
    ensures Interpolate1At(size, periodic, data, m as real, fill) == Ok(data[m + 1])
  {
    var t := m as real;
    assert t.Floor == m;
    assert t - m as real == 0.0;
    if periodic {
      assert m % size == m;
      var hi := (m + 1) % size;
      assert 0 <= hi < size;
      assert (1.0 - 0.0) * data[m + 1] + 0.0 * data[hi + 1] == data[m + 1];
    } else {
      assert (1.0 - 0.0) * data[m + 1] + 0.0 * data[m + 2] == data[m + 1];
    }
  }

  /** On a periodic axis, points a whole number of periods apart interpolate alike. */
  lemma Interpolate1Shift(size: nat, data: seq<real>, t: real, k: int, fill: Option<real>)
    requires size >= 1 && |data| == size + 2
    ensures Interpolate1At(size, true, data, t + (k * size) as real, fill)
            == Interpolate1At(size, true, data, t, fill)
  {
    var y := t + (k * size) as real;
    var c := t.Floor;
    assert y.Floor == c + k * size;
    ModShift(c, k, size);
    var li := c % size;
    var hi := (li + 1) % size;
    var d := t - c as real;
    assert Interpolate1At(size, true, data, y, fill).value
           == (1.0 - d) * data[li + 1] + d * data[hi + 1];
    assert Interpolate1At(size, true, data, t, fill).value
           == (1.0 - d) * data[li + 1] + d * data[hi + 1];
  }

  lemma MulAtLeast(n: int, s: int)
    requires n >= 1 && s > 0
    ensures n * s >= s
  {
    assert n * s == (n - 1) * s + s;
    assert (n - 1) * s >= 0;
  }

  /** Euclidean remainders are unique. */
  lemma ModUnique(a: int, s: int, q: int, r: int)
    requires s > 0 && a == q * s + r && 0 <= r < s
    ensures a % s == r
  {
    var q2 := a / s;
    var r2 := a % s;
    assert a == q2 * s + r2;
    assert (q - q2) * s == r2 - r;
    if q - q2 >= 1 {
      MulAtLeast(q - q2, s);
    } else if q2 - q >= 1 {
      assert (q2 - q) * s == r - r2;
      MulAtLeast(q2 - q, s);
    }
  }

  lemma ModShift(c: int, k: int, s: nat)
    requires s > 0
    ensures (c + k * s) % s == c % s
  {
    var q := c / s;
    assert c == q * s + c % s;
    assert c + k * s == (q + k) * s + c % s;
    ModUnique(c + k * s, s, q + k, c % s);
  }

  // ---------------------------------------------------------------------------------------
  // Two axes

  /** Whether the two-axis interpolator uses corner `(i, j)`: no coordinate outside, and not both on a boundary. */
  predicate Used2(g: Grid, c: seq<int>, i: int, j: int)
    requires g.Valid() && g.NumAxes() == 2 && |c| == 2
  {
    var px := PlaceOf(g, 0, c[0] + i);
    var py := PlaceOf(g, 1, c[1] + j);
    !px.Outside? && !py.Outside? && !(px.Boundary? && py.Boundary?)
  }

  /** Full data on two axes: `shape[0] + 2` rows of `shape[1] + 2` values, ghost cells included. */
  predicate Plane(g: Grid, data: seq<seq<real>>)
    requires g.Valid() && g.NumAxes() == 2
  {
    |data| == g.shape[0] + 2 && forall r :: 0 <= r < |data| ==> |data[r]| == g.shape[1] + 2
  }

  /**
   * What the two- and three-axis interpolators work on: the lower neighbouring cells `c` and
   * the fractions `d` of a point on a grid with `n` axes.
   */
  predicate Neighbourhood(g: Grid, n: nat, c: seq<int>, d: seq<real>) {
    && g.Valid() && g.NumAxes() == n && |c| == n && |d| == n
    && forall a :: 0 <= a < n ==> 0.0 <= d[a] < 1.0
  }

  /** The weight of corner `(i, j)`: the product of the per-axis weights, 0 when unused. */
  function CornerWeight2(g: Grid, c: seq<int>, d: seq<real>, i: int, j: int): real
    requires Neighbourhood(g, 2, c, d)
  {
    if Used2(g, c, i, j) then Weight(d[0], i) * Weight(d[1], j) else 0.0
  }

  /** The weighted data value of corner `(i, j)`, 0 when unused. */
  function CornerValue2(g: Grid, data: seq<seq<real>>, c: seq<int>, d: seq<real>, i: int, j: int)
    : real
    requires Neighbourhood(g, 2, c, d) && Plane(g, data)
  {
    if Used2(g, c, i, j) then
      var x := PlaceOf(g, 0, c[0] + i).idx;
      var y := PlaceOf(g, 1, c[1] + j).idx;
      CornerWeight2(g, c, d, i, j) * data[x + 1][y + 1]
    else 0.0
  }

  /** The weights of corners `(i, 0) .. (i, n - 1)`, summed. */
  function RowWeight2(g: Grid, c: seq<int>, d: seq<real>, i: int, n: int): real
    requires Neighbourhood(g, 2, c, d)
  {
    (if n >= 1 then CornerWeight2(g, c, d, i, 0) else 0.0)
    + (if n >= 2 then CornerWeight2(g, c, d, i, 1) else 0.0)
  }

  /** The weighted values of corners `(i, 0) .. (i, n - 1)`, summed. */
  function RowValue2(g: Grid, data: seq<seq<real>>, c: seq<int>, d: seq<real>, i: int, n: int)
    : real
    requires Neighbourhood(g, 2, c, d) && Plane(g, data)
  {
    (if n >= 1 then CornerValue2(g, data, c, d, i, 0) else 0.0)
    + (if n >= 2 then CornerValue2(g, data, c, d, i, 1) else 0.0)
  }

  /** The weights of the corners in rows `0 .. n - 1`, summed. */
  function WeightSum2(g: Grid, c: seq<int>, d: seq<real>, n: int): real
    requires Neighbourhood(g, 2, c, d)
  {
    (if n >= 1 then RowWeight2(g, c, d, 0, 2) else 0.0)
    + (if n >= 2 then RowWeight2(g, c, d, 1, 2) else 0.0)
  }

  /** The weighted values of the corners in rows `0 .. n - 1`, summed. */
  function ValueSum2(g: Grid, data: seq<seq<real>>, c: seq<int>, d: seq<real>, n: int): real
    requires Neighbourhood(g, 2, c, d) && Plane(g, data)
  {
    (if n >= 1 then RowValue2(g, data, c, d, 0, 2) else 0.0)
    + (if n >= 2 then RowValue2(g, data, c, d, 1, 2) else 0.0)
  }

  /** The weighted average, or `fill` / a DomainError when no corner carries weight. */
  function Average(value: real, weight: real, fill: Option<real>): Result<real> {
    if weight == 0.0 then FillOr(fill) else Ok(value / weight)
  }

  /** What the two-axis interpolator computes from the lower neighbours and the fractions. */
  function Interpolation2At(g: Grid, data: seq<seq<real>>, c: seq<int>, d: seq<real>,
                            fill: Option<real>): Result<real>
    requires Neighbourhood(g, 2, c, d) && Plane(g, data)
  {
    Average(ValueSum2(g, data, c, d, 2), WeightSum2(g, c, d, 2), fill)
  }

  /** What the two-axis interpolator computes at `point`. */
  function Interpolation2(g: Grid, data: seq<seq<real>>, point: seq<real>, fill: Option<real>,
                          cellCoords: bool): Result<real>
    requires PointFits(g, 2, point) && Plane(g, data)
  {
    Interpolation2At(g, data, Floors(g, point, cellCoords), Fracs(g, point, cellCoords), fill)
  }

  /** A used corner carries weight `w`, the product of its per-axis weights, times its value. */
  lemma CornerUsed2(g: Grid, data: seq<seq<real>>, c: seq<int>, d: seq<real>, i: int, j: int,
                    x: int, y: int, w: real)
    requires Neighbourhood(g, 2, c, d) && Plane(g, data) && Used2(g, c, i, j)
    requires x == PlaceOf(g, 0, c[0] + i).idx && y == PlaceOf(g, 1, c[1] + j).idx
    requires w == Weight(d[0], i) * Weight(d[1], j)
    ensures -1 <= x <= g.shape[0] && -1 <= y <= g.shape[1]
    ensures CornerWeight2(g, c, d, i, j) == w
    ensures CornerValue2(g, data, c, d, i, j) == w * data[x + 1][y + 1]
  {
  }

  /** Adding corner `(i, j)` to the first `j` corners of row `i`. */
  lemma RowStep2(g: Grid, data: seq<seq<real>>, c: seq<int>, d: seq<real>, i: int, j: int)
    requires Neighbourhood(g, 2, c, d) && Plane(g, data) && 0 <= j < 2
    ensures RowWeight2(g, c, d, i, j + 1) == RowWeight2(g, c, d, i, j) + CornerWeight2(g, c, d, i, j)
    ensures RowValue2(g, data, c, d, i, j + 1)
            == RowValue2(g, data, c, d, i, j) + CornerValue2(g, data, c, d, i, j)
  {
  }

  /** Adding row `i` to the rows before it. */
  lemma GridStep2(g: Grid, data: seq<seq<real>>, c: seq<int>, d: seq<real>, i: int)
    requires Neighbourhood(g, 2, c, d) && Plane(g, data) && 0 <= i < 2
    ensures WeightSum2(g, c, d, i + 1) == WeightSum2(g, c, d, i) + RowWeight2(g, c, d, i, 2)
    ensures ValueSum2(g, data, c, d, i + 1)
            == ValueSum2(g, data, c, d, i) + RowValue2(g, data, c, d, i, 2)
  {
  }

  /** An unused corner carries nothing. */
  lemma CornerUnused2(g: Grid, data: seq<seq<real>>, c: seq<int>, d: seq<real>, i: int, j: int)
    requires Neighbourhood(g, 2, c, d) && Plane(g, data) && !Used2(g, c, i, j)
    ensures CornerWeight2(g, c, d, i, j) == 0.0 && CornerValue2(g, data, c, d, i, j) == 0.0
  {
  }

  /** A row whose x coordinate lies outside adds nothing to either sum. */
  lemma RowUnused2(g: Grid, data: seq<seq<real>>, c: seq<int>, d: seq<real>, i: int)
    requires Neighbourhood(g, 2, c, d) && Plane(g, data) && PlaceOf(g, 0, c[0] + i).Outside?
    ensures RowWeight2(g, c, d, i, 2) == 0.0 && RowValue2(g, data, c, d, i, 2) == 0.0
  {
    CornerUnused2(g, data, c, d, i, 0);
    CornerUnused2(g, data, c, d, i, 1);
  }

  /**
   * The loops of the two-axis interpolator: the weighted values and the weights of the used
   * corners, summed.
   */
  method Accumulate2(g: Grid, data: seq<seq<real>>, c: seq<int>, d: seq<real>)
    returns (value: real, weight: real)
    requires Neighbourhood(g, 2, c, d) && Plane(g, data)
    ensures value == ValueSum2(g, data, c, d, 2) && weight == WeightSum2(g, c, d, 2)
  {
    var sizeX := g.shape[0];
    var sizeY := g.shape[1];
    value := 0.0;
    weight := 0.0;
    for i := 0 to 2
      invariant value == ValueSum2(g, data, c, d, i) && weight == WeightSum2(g, c, d, i)
    {
      GridStep2(g, data, c, d, i);
      var cx := c[0] + i;
      var atBoundary := false;
      if g.periodic[0] {
        WrapMod(cx, sizeX);
        cx := cx % sizeX;
      } else if cx == -1 || cx == sizeX {
        atBoundary := true;
      } else if cx < -1 || cx > sizeX {
        RowUnused2(g, data, c, d, i);
        continue;
      }
      assert PlaceOf(g, 0, c[0] + i) == if atBoundary then Boundary(cx) else Interior(cx);
      ghost var rowValue := ValueSum2(g, data, c, d, i);
      ghost var rowWeight := WeightSum2(g, c, d, i);
      for j := 0 to 2
        invariant value == rowValue + RowValue2(g, data, c, d, i, j)
        invariant weight == rowWeight + RowWeight2(g, c, d, i, j)
      {
        RowStep2(g, data, c, d, i, j);
        var cy := c[1] + j;
        if g.periodic[1] {
          WrapMod(cy, sizeY);
          cy := cy % sizeY;
        } else if cy == -1 || cy == sizeY {
          if atBoundary {
            CornerUnused2(g, data, c, d, i, j);
            continue;
          }
        } else if cy < -1 || cy > sizeY {
          CornerUnused2(g, data, c, d, i, j);
          continue;
        }
        var w := Weight(d[0], i) * Weight(d[1], j);
        CornerUsed2(g, data, c, d, i, j, cx, cy, w);
        value := value + w * data[cx + 1][cy + 1];
        weight := weight + w;
      }
    }
  }

  /**
   * The two-axis interpolator: a loop over the four corners around the point that skips the
   * corners outside the domain and those on the boundary along both axes.
   */
  method Interpolate2(g: Grid, data: seq<seq<real>>, point: seq<real>, fill: Option<real>,
                      cellCoords: bool) returns (r: Result<real>)
    requires PointFits(g, 2, point) && Plane(g, data)
    ensures r == Interpolation2(g, data, point, fill, cellCoords)
  {
    var c := Floors(g, point, cellCoords);
    var d := Fracs(g, point, cellCoords);
    var value, weight := Accumulate2(g, data, c, d);
    if weight == 0.0 {
      if fill.None? {
        return Err(DomainError);
      }
      return Ok(fill.value);
    }
    return Ok(value / weight);
  }

  /** The weights of the four corners add up to one. */
  lemma Unity2(a: real, b: real)
    ensures (1.0 - a) * (1.0 - b) + (1.0 - a) * b + a * (1.0 - b) + a * b == 1.0
  {
  }

  /**
   * When all four corners are used their weights add up to one, and the result is the
   * sum of the weighted corner values.
   */
  lemma Interpolation2AllUsed(g: Grid, data: seq<seq<real>>, c: seq<int>, d: seq<real>,
                              fill: Option<real>)
    requires Neighbourhood(g, 2, c, d) && Plane(g, data)
    requires forall i, j :: 0 <= i < 2 && 0 <= j < 2 ==> Used2(g, c, i, j)
    ensures WeightSum2(g, c, d, 2) == 1.0
    ensures Interpolation2At(g, data, c, d, fill) == Ok(ValueSum2(g, data, c, d, 2))
  {
    assert Used2(g, c, 0, 0) && Used2(g, c, 0, 1) && Used2(g, c, 1, 0) && Used2(g, c, 1, 1);
    Unity2(d[0], d[1]);
  }

  /** With no used corner the result is `fill` or a DomainError. */
  lemma Interpolation2NoCorner(g: Grid, data: seq<seq<real>>, c: seq<int>, d: seq<real>,
                               fill: Option<real>)
    requires Neighbourhood(g, 2, c, d) && Plane(g, data)
    requires forall i, j :: 0 <= i < 2 && 0 <= j < 2 ==> !Used2(g, c, i, j)
    ensures Interpolation2At(g, data, c, d, fill) == FillOr(fill)
  {
    assert !Used2(g, c, 0, 0) && !Used2(g, c, 0, 1) && !Used2(g, c, 1, 0) && !Used2(g, c, 1, 1);
  }

  /** With no fraction left over, the lower neighbour alone carries the weight. */
  lemma Interpolation2AtCell(g: Grid, data: seq<seq<real>>, m: nat, n: nat, fill: Option<real>)
    requires Neighbourhood(g, 2, [m, n], [0.0, 0.0]) && Plane(g, data)
    requires m < g.shape[0] && n < g.shape[1]
    ensures Interpolation2At(g, data, [m, n], [0.0, 0.0], fill) == Ok(data[m + 1][n + 1])
  {
    var c: seq<int> := [m, n];
    var d := [0.0, 0.0];
    assert Wrap(m, g.shape[0]) == m && Wrap(n, g.shape[1]) == n;
    assert Used2(g, c, 0, 0);
    CornerUsed2(g, data, c, d, 0, 0, m, n, 1.0);
    assert CornerWeight2(g, c, d, 0, 1) == 0.0 && CornerValue2(g, data, c, d, 0, 1) == 0.0;
    assert CornerWeight2(g, c, d, 1, 0) == 0.0 && CornerValue2(g, data, c, d, 1, 0) == 0.0;
    assert CornerWeight2(g, c, d, 1, 1) == 0.0 && CornerValue2(g, data, c, d, 1, 1) == 0.0;
    assert WeightSum2(g, c, d, 2) == 1.0;
    assert ValueSum2(g, data, c, d, 2) == data[m + 1][n + 1];
  }

  /** At the centre of a valid cell the two-axis interpolator returns that cell's value. */
  lemma Interpolation2AtCentre(g: Grid, data: seq<seq<real>>, m: nat, n: nat, fill: Option<real>)
    requires PointFits(g, 2, [m as real, n as real]) && Plane(g, data)
    requires m < g.shape[0] && n < g.shape[1]
    ensures Interpolation2(g, data, [m as real, n as real], fill, true) == Ok(data[m + 1][n + 1])
  {
    var point := [m as real, n as real];
    assert (m as real).Floor == m && (n as real).Floor == n;
    assert Floors(g, point, true) == [m, n];
    assert Fracs(g, point, true) == [0.0, 0.0];
    Interpolation2AtCell(g, data, m, n, fill);
  }

  // ---------------------------------------------------------------------------------------
  // Three axes

  /**
   * The code of the three-axis interpolator as written, whose `at_boundary` flag keeps the
   * value set for one `j` into the next, and the intended rule, which decides each corner
   * by its own coordinates.
   */
  datatype Rule = AsWritten | Intended

  /**
   * The `at_boundary` flag at the start of iteration `j` of the middle loop: set when x lies
   * on a boundary and, as written, also when y lay on a boundary in iteration 0.
   */
  predicate FlagAtJ(g: Grid, c: seq<int>, rule: Rule, i: int, j: int)
    requires g.Valid() && g.NumAxes() == 3 && |c| == 3
  {
    PlaceOf(g, 0, c[0] + i).Boundary?
    || (rule == AsWritten && j == 1 && PlaceOf(g, 1, c[1]).Boundary?)
  }

  /** Whether corner `(i, j, k)` reaches the accumulation under `rule`. */
  predicate Used3(g: Grid, c: seq<int>, rule: Rule, i: int, j: int, k: int)
    requires g.Valid() && g.NumAxes() == 3 && |c| == 3
  {
    var px := PlaceOf(g, 0, c[0] + i);
    var py := PlaceOf(g, 1, c[1] + j);
    var pz := PlaceOf(g, 2, c[2] + k);
    var flag := FlagAtJ(g, c, rule, i, j);
    && !px.Outside? && !py.Outside? && !pz.Outside?
    && !(py.Boundary? && flag)
    && !(pz.Boundary? && (flag || py.Boundary?))
  }

  /** Full data on three axes, ghost cells included. */
  predicate Block(g: Grid, data: seq<seq<seq<real>>>)
    requires g.Valid() && g.NumAxes() == 3
  {
    && |data| == g.shape[0] + 2
    && (forall r :: 0 <= r < |data| ==> |data[r]| == g.shape[1] + 2)
    && (forall r, q :: 0 <= r < |data| && 0 <= q < |data[r]| ==> |data[r][q]| == g.shape[2] + 2)
  }

  function CornerWeight3(g: Grid, c: seq<int>, d: seq<real>, rule: Rule, i: int, j: int, k: int)
    : real
    requires Neighbourhood(g, 3, c, d)
  {
    if Used3(g, c, rule, i, j, k) then Weight(d[0], i) * Weight(d[1], j) * Weight(d[2], k)
    else 0.0
  }

  function CornerValue3(g: Grid, data: seq<seq<seq<real>>>, c: seq<int>, d: seq<real>, rule: Rule,
                        i: int, j: int, k: int): real
    requires Neighbourhood(g, 3, c, d) && Block(g, data)
  {
    if Used3(g, c, rule, i, j, k) then
      var x := PlaceOf(g, 0, c[0] + i).idx;
      var y := PlaceOf(g, 1, c[1] + j).idx;
      var z := PlaceOf(g, 2, c[2] + k).idx;
      CornerWeight3(g, c, d, rule, i, j, k) * data[x + 1][y + 1][z + 1]
    else 0.0
  }

  /** The weights of corners `(i, j, 0) .. (i, j, n - 1)`, summed. */
  function ColWeight3(g: Grid, c: seq<int>, d: seq<real>, rule: Rule, i: int, j: int, n: int)
    : real
    requires Neighbourhood(g, 3, c, d)
  {
    (if n >= 1 then CornerWeight3(g, c, d, rule, i, j, 0) else 0.0)
    + (if n >= 2 then CornerWeight3(g, c, d, rule, i, j, 1) else 0.0)
  }

  /** The weighted values of corners `(i, j, 0) .. (i, j, n - 1)`, summed. */
  function ColValue3(g: Grid, data: seq<seq<seq<real>>>, c: seq<int>, d: seq<real>, rule: Rule,
                     i: int, j: int, n: int): real
    requires Neighbourhood(g, 3, c, d) && Block(g, data)
  {
    (if n >= 1 then CornerValue3(g, data, c, d, rule, i, j, 0) else 0.0)
    + (if n >= 2 then CornerValue3(g, data, c, d, rule, i, j, 1) else 0.0)
  }

  /** The weights of the corners in columns `(i, 0) .. (i, n - 1)`, summed. */
  function RowWeight3(g: Grid, c: seq<int>, d: seq<real>, rule: Rule, i: int, n: int): real
    requires Neighbourhood(g, 3, c, d)
  {
    (if n >= 1 then ColWeight3(g, c, d, rule, i, 0, 2) else 0.0)
    + (if n >= 2 then ColWeight3(g, c, d, rule, i, 1, 2) else 0.0)
  }

  /** The weighted values of the corners in columns `(i, 0) .. (i, n - 1)`, summed. */
  function RowValue3(g: Grid, data: seq<seq<seq<real>>>, c: seq<int>, d: seq<real>, rule: Rule,
                     i: int, n: int): real
    requires Neighbourhood(g, 3, c, d) && Block(g, data)
  {
    (if n >= 1 then ColValue3(g, data, c, d, rule, i, 0, 2) else 0.0)
    + (if n >= 2 then ColValue3(g, data, c, d, rule, i, 1, 2) else 0.0)
  }

  /** The weights of the corners in rows `0 .. n - 1`, summed. */
  function WeightSum3(g: Grid, c: seq<int>, d: seq<real>, rule: Rule, n: int): real
    requires Neighbourhood(g, 3, c, d)
  {
    (if n >= 1 then RowWeight3(g, c, d, rule, 0, 2) else 0.0)
    + (if n >= 2 then RowWeight3(g, c, d, rule, 1, 2) else 0.0)
  }

  /** The weighted values of the corners in rows `0 .. n - 1`, summed. */
  function ValueSum3(g: Grid, data: seq<seq<seq<real>>>, c: seq<int>, d: seq<real>, rule: Rule,
                     n: int): real
    requires Neighbourhood(g, 3, c, d) && Block(g, data)
  {
    (if n >= 1 then RowValue3(g, data, c, d, rule, 0, 2) else 0.0)
    + (if n >= 2 then RowValue3(g, data, c, d, rule, 1, 2) else 0.0)
  }

  /** What the three-axis interpolator computes under `rule` from `c` and `d`. */
  function Interpolation3At(g: Grid, data: seq<seq<seq<real>>>, c: seq<int>, d: seq<real>,
                            rule: Rule, fill: Option<real>): Result<real>
    requires Neighbourhood(g, 3, c, d) && Block(g, data)
  {
    Average(ValueSum3(g, data, c, d, rule, 2), WeightSum3(g, c, d, rule, 2), fill)
  }

  /** What the three-axis interpolator computes at `point` under `rule`. */
  function Interpolation3(g: Grid, data: seq<seq<seq<real>>>, point: seq<real>,
                          fill: Option<real>, cellCoords: bool, rule: Rule): Result<real>
    requires PointFits(g, 3, point) && Block(g, data)
  {
    Interpolation3At(g, data, Floors(g, point, cellCoords), Fracs(g, point, cellCoords), rule,
                     fill)
  }

  /** Adding corner `(i, j, k)` to the corners before it in its column. */
  lemma ColStep3(g: Grid, data: seq<seq<seq<real>>>, c: seq<int>, d: seq<real>, rule: Rule,
                 i: int, j: int, k: int)
    requires Neighbourhood(g, 3, c, d) && Block(g, data) && 0 <= k < 2
    ensures ColWeight3(g, c, d, rule, i, j, k + 1)
            == ColWeight3(g, c, d, rule, i, j, k) + CornerWeight3(g, c, d, rule, i, j, k)
    ensures ColValue3(g, data, c, d, rule, i, j, k + 1)
            == ColValue3(g, data, c, d, rule, i, j, k) + CornerValue3(g, data, c, d, rule, i, j, k)
  {
  }

  /** Adding column `(i, j)` to the columns before it in its row. */
  lemma RowStep3(g: Grid, data: seq<seq<seq<real>>>, c: seq<int>, d: seq<real>, rule: Rule,
                 i: int, j: int)
    requires Neighbourhood(g, 3, c, d) && Block(g, data) && 0 <= j < 2
    ensures RowWeight3(g, c, d, rule, i, j + 1)
            == RowWeight3(g, c, d, rule, i, j) + ColWeight3(g, c, d, rule, i, j, 2)
    ensures RowValue3(g, data, c, d, rule, i, j + 1)
            == RowValue3(g, data, c, d, rule, i, j) + ColValue3(g, data, c, d, rule, i, j, 2)
  {
  }

  /** Adding row `i` to the rows before it. */
  lemma GridStep3(g: Grid, data: seq<seq<seq<real>>>, c: seq<int>, d: seq<real>, rule: Rule,
                  i: int)
    requires Neighbourhood(g, 3, c, d) && Block(g, data) && 0 <= i < 2
    ensures WeightSum3(g, c, d, rule, i + 1)
            == WeightSum3(g, c, d, rule, i) + RowWeight3(g, c, d, rule, i, 2)
    ensures ValueSum3(g, data, c, d, rule, i + 1)
            == ValueSum3(g, data, c, d, rule, i) + RowValue3(g, data, c, d, rule, i, 2)
  {
  }

  /** A used corner carries weight `w`, the product of its per-axis weights, times its value. */
  lemma CornerUsed3(g: Grid, data: seq<seq<seq<real>>>, c: seq<int>, d: seq<real>, rule: Rule,
                    i: int, j: int, k: int, x: int, y: int, z: int, w: real)
    requires Neighbourhood(g, 3, c, d) && Block(g, data) && Used3(g, c, rule, i, j, k)
    requires x == PlaceOf(g, 0, c[0] + i).idx && y == PlaceOf(g, 1, c[1] + j).idx
    requires z == PlaceOf(g, 2, c[2] + k).idx
    requires w == Weight(d[0], i) * Weight(d[1], j) * Weight(d[2], k)
    ensures -1 <= x <= g.shape[0] && -1 <= y <= g.shape[1] && -1 <= z <= g.shape[2]
    ensures CornerWeight3(g, c, d, rule, i, j, k) == w
    ensures CornerValue3(g, data, c, d, rule, i, j, k) == w * data[x + 1][y + 1][z + 1]
  {
  }

  /** An unused corner carries nothing. */
  lemma CornerUnused3(g: Grid, data: seq<seq<seq<real>>>, c: seq<int>, d: seq<real>, rule: Rule,
                      i: int, j: int, k: int)
    requires Neighbourhood(g, 3, c, d) && Block(g, data) && !Used3(g, c, rule, i, j, k)
    ensures CornerWeight3(g, c, d, rule, i, j, k) == 0.0
    ensures CornerValue3(g, data, c, d, rule, i, j, k) == 0.0
  {
  }

  /** A column skipped by the middle loop adds nothing to either sum. */
  lemma ColUnused3(g: Grid, data: seq<seq<seq<real>>>, c: seq<int>, d: seq<real>, rule: Rule,
                   i: int, j: int)
    requires Neighbourhood(g, 3, c, d) && Block(g, data)
    requires !Used3(g, c, rule, i, j, 0) && !Used3(g, c, rule, i, j, 1)
    ensures ColWeight3(g, c, d, rule, i, j, 2) == 0.0
    ensures ColValue3(g, data, c, d, rule, i, j, 2) == 0.0
  {
    CornerUnused3(g, data, c, d, rule, i, j, 0);
    CornerUnused3(g, data, c, d, rule, i, j, 1);
  }

  /** A row whose x coordinate lies outside adds nothing to either sum. */
  lemma RowUnused3(g: Grid, data: seq<seq<seq<real>>>, c: seq<int>, d: seq<real>, rule: Rule,
                   i: int)
    requires Neighbourhood(g, 3, c, d) && Block(g, data) && PlaceOf(g, 0, c[0] + i).Outside?
    ensures RowWeight3(g, c, d, rule, i, 2) == 0.0
    ensures RowValue3(g, data, c, d, rule, i, 2) == 0.0
  {
    ColUnused3(g, data, c, d, rule, i, 0);
    ColUnused3(g, data, c, d, rule, i, 1);
  }

  /**
   * The innermost loop of the three-axis interpolator, over z for corner column `(i, j)`:
   * the weighted values and the weights it adds. `atBoundary` is the flag on entry.
   */
  method AccumulateColumn3(g: Grid, data: seq<seq<seq<real>>>, c: seq<int>, d: seq<real>,
                           rule: Rule, i: int, j: int, cx: int, cy: int, atBoundary: bool)
    returns (value: real, weight: real)
    requires Neighbourhood(g, 3, c, d) && Block(g, data)
    requires !PlaceOf(g, 0, c[0] + i).Outside? && PlaceOf(g, 0, c[0] + i).idx == cx
    requires !PlaceOf(g, 1, c[1] + j).Outside? && PlaceOf(g, 1, c[1] + j).idx == cy
    requires !(PlaceOf(g, 1, c[1] + j).Boundary? && FlagAtJ(g, c, rule, i, j))
    requires atBoundary == (FlagAtJ(g, c, rule, i, j) || PlaceOf(g, 1, c[1] + j).Boundary?)
    ensures value == ColValue3(g, data, c, d, rule, i, j, 2)
    ensures weight == ColWeight3(g, c, d, rule, i, j, 2)
  {
    var sizeZ := g.shape[2];
    value := 0.0;
    weight := 0.0;
    for k := 0 to 2
      invariant value == ColValue3(g, data, c, d, rule, i, j, k)
      invariant weight == ColWeight3(g, c, d, rule, i, j, k)
    {
      ColStep3(g, data, c, d, rule, i, j, k);
      var cz := c[2] + k;
      if g.periodic[2] {
        WrapMod(cz, sizeZ);
        cz := cz % sizeZ;
      } else if cz == -1 || cz == sizeZ {
        if atBoundary {
          CornerUnused3(g, data, c, d, rule, i, j, k);
          continue;
        }
      } else if cz < -1 || cz > sizeZ {
        CornerUnused3(g, data, c, d, rule, i, j, k);
        continue;
      }
      var w := Weight(d[0], i) * Weight(d[1], j) * Weight(d[2], k);
      CornerUsed3(g, data, c, d, rule, i, j, k, cx, cy, cz, w);
      value := value + w * data[cx + 1][cy + 1][cz + 1];
      weight := weight + w;
    }
  }

  /** The loops of the three-axis interpolator as written, summing over the corners they reach. */
  method Accumulate3AsWritten(g: Grid, data: seq<seq<seq<real>>>, c: seq<int>, d: seq<real>)
    returns (value: real, weight: real)
    requires Neighbourhood(g, 3, c, d) && Block(g, data)
    ensures value == ValueSum3(g, data, c, d, AsWritten, 2)
    ensures weight == WeightSum3(g, c, d, AsWritten, 2)
  {
    var sizeX, sizeY := g.shape[0], g.shape[1];
    value := 0.0;
    weight := 0.0;
    for i := 0 to 2
      invariant value == ValueSum3(g, data, c, d, AsWritten, i)
      invariant weight == WeightSum3(g, c, d, AsWritten, i)
    {
      GridStep3(g, data, c, d, AsWritten, i);
      var cx := c[0] + i;
      var atBoundary := false;
      if g.periodic[0] {
        WrapMod(cx, sizeX);
        cx := cx % sizeX;
      } else if cx == -1 || cx == sizeX {
        atBoundary := true;
      } else if cx < -1 || cx > sizeX {
        RowUnused3(g, data, c, d, AsWritten, i);
        continue;
      }
      assert PlaceOf(g, 0, c[0] + i) == if atBoundary then Boundary(cx) else Interior(cx);
      ghost var rowValue := ValueSum3(g, data, c, d, AsWritten, i);
      ghost var rowWeight := WeightSum3(g, c, d, AsWritten, i);
      for j := 0 to 2
        invariant value == rowValue + RowValue3(g, data, c, d, AsWritten, i, j)
        invariant weight == rowWeight + RowWeight3(g, c, d, AsWritten, i, j)
        invariant j < 2 ==> atBoundary == FlagAtJ(g, c, AsWritten, i, j)
      {
        RowStep3(g, data, c, d, AsWritten, i, j);
        var cy := c[1] + j;
        if g.periodic[1] {
          WrapMod(cy, sizeY);
          cy := cy % sizeY;
        } else if cy == -1 || cy == sizeY {
          if atBoundary {
            ColUnused3(g, data, c, d, AsWritten, i, j);
            continue;
          } else {
            atBoundary := true;
          }
        } else if cy < -1 || cy > sizeY {
          ColUnused3(g, data, c, d, AsWritten, i, j);
          continue;
        }
        assert PlaceOf(g, 1, c[1] + j).idx == cy;
        var columnValue, columnWeight := AccumulateColumn3(g, data, c, d, AsWritten, i, j, cx, cy,
                                                           atBoundary);
        value := value + columnValue;
        weight := weight + columnWeight;
        assert j == 0 && PlaceOf(g, 1, c[1]).Boundary? ==> atBoundary;
      }
    }
  }

  /**
   * The three-axis interpolator as written: the flag set in the middle loop when y lies on
   * a boundary stays set for the following `j`.
   */
  method Interpolate3AsWritten(g: Grid, data: seq<seq<seq<real>>>, point: seq<real>,
                               fill: Option<real>, cellCoords: bool) returns (r: Result<real>)
    requires PointFits(g, 3, point) && Block(g, data)
    ensures r == Interpolation3(g, data, point, fill, cellCoords, AsWritten)
  {
    var c := Floors(g, point, cellCoords);
    var d := Fracs(g, point, cellCoords);
    var value, weight := Accumulate3AsWritten(g, data, c, d);
    if weight == 0.0 {
      if fill.None? {
        return Err(DomainError);
      }
      return Ok(fill.value);
    }
    return Ok(value / weight);
  }

  /** The loops of the three-axis interpolator with the flag decided afresh for each `j`. */
  method Accumulate3(g: Grid, data: seq<seq<seq<real>>>, c: seq<int>, d: seq<real>)
    returns (value: real, weight: real)
    requires Neighbourhood(g, 3, c, d) && Block(g, data)
    ensures value == ValueSum3(g, data, c, d, Intended, 2)
    ensures weight == WeightSum3(g, c, d, Intended, 2)
  {
    var sizeX, sizeY := g.shape[0], g.shape[1];
    value := 0.0;
    weight := 0.0;
    for i := 0 to 2
      invariant value == ValueSum3(g, data, c, d, Intended, i)
      invariant weight == WeightSum3(g, c, d, Intended, i)
    {
      GridStep3(g, data, c, d, Intended, i);
      var cx := c[0] + i;
      var atBoundaryX := false;
      if g.periodic[0] {
        WrapMod(cx, sizeX);
        cx := cx % sizeX;
      } else if cx == -1 || cx == sizeX {
        atBoundaryX := true;
      } else if cx < -1 || cx > sizeX {
        RowUnused3(g, data, c, d, Intended, i);
        continue;
      }
      assert PlaceOf(g, 0, c[0] + i) == if atBoundaryX then Boundary(cx) else Interior(cx);
      ghost var rowValue := ValueSum3(g, data, c, d, Intended, i);
      ghost var rowWeight := WeightSum3(g, c, d, Intended, i);
      for j := 0 to 2
        invariant value == rowValue + RowValue3(g, data, c, d, Intended, i, j)
        invariant weight == rowWeight + RowWeight3(g, c, d, Intended, i, j)
      {
        RowStep3(g, data, c, d, Intended, i, j);
        var cy := c[1] + j;
        var atBoundary := atBoundaryX;
        if g.periodic[1] {
          WrapMod(cy, sizeY);
          cy := cy % sizeY;
        } else if cy == -1 || cy == sizeY {
          if atBoundary {
            ColUnused3(g, data, c, d, Intended, i, j);
            continue;
          } else {
            atBoundary := true;
          }
        } else if cy < -1 || cy > sizeY {
          ColUnused3(g, data, c, d, Intended, i, j);
          continue;
        }
        assert PlaceOf(g, 1, c[1] + j).idx == cy;
        var columnValue, columnWeight := AccumulateColumn3(g, data, c, d, Intended, i, j, cx, cy,
                                                           atBoundary);
        value := value + columnValue;
        weight := weight + columnWeight;
      }
    }
  }

  /**
   * The three-axis interpolator with the flag decided afresh for each `j`: a corner is
   * skipped when any coordinate lies outside or two of them lie on a boundary.
   */
  method Interpolate3(g: Grid, data: seq<seq<seq<real>>>, point: seq<real>, fill: Option<real>,
                      cellCoords: bool) returns (r: Result<real>)
    requires PointFits(g, 3, point) && Block(g, data)
    ensures r == Interpolation3(g, data, point, fill, cellCoords, Intended)
  {
    var c := Floors(g, point, cellCoords);
    var d := Fracs(g, point, cellCoords);
    var value, weight := Accumulate3(g, data, c, d);
    if weight == 0.0 {
      if fill.None? {
        return Err(DomainError);
      }
      return Ok(fill.value);
    }
    return Ok(value / weight);
  }

  /** A corner away from the lower neighbour carries no weight when no fraction is left over. */
  lemma CornerZero3(g: Grid, data: seq<seq<seq<real>>>, c: seq<int>, d: seq<real>, rule: Rule,
                    i: int, j: int, k: int)
    requires Neighbourhood(g, 3, c, d) && Block(g, data) && d == [0.0, 0.0, 0.0]
    requires 0 <= i < 2 && 0 <= j < 2 && 0 <= k < 2 && (i == 1 || j == 1 || k == 1)
    ensures CornerWeight3(g, c, d, rule, i, j, k) == 0.0
    ensures CornerValue3(g, data, c, d, rule, i, j, k) == 0.0
  {
    assert Weight(0.0, 1) == 0.0;
  }

  /**
   * With no fraction left over, under either rule the lower neighbour alone carries the
   * weight, so the interpolator returns its value.
   */
  lemma Interpolation3AtCell(g: Grid, data: seq<seq<seq<real>>>, m: nat, n: nat, p: nat,
                             rule: Rule, fill: Option<real>)
    requires Neighbourhood(g, 3, [m, n, p], [0.0, 0.0, 0.0]) && Block(g, data)
    requires m < g.shape[0] && n < g.shape[1] && p < g.shape[2]
    ensures Interpolation3At(g, data, [m, n, p], [0.0, 0.0, 0.0], rule, fill)
            == Ok(data[m + 1][n + 1][p + 1])
  {
    var c: seq<int> := [m, n, p];
    var d := [0.0, 0.0, 0.0];
    assert Wrap(m, g.shape[0]) == m && Wrap(n, g.shape[1]) == n && Wrap(p, g.shape[2]) == p;
    assert PlaceOf(g, 0, m) == Interior(m);
    assert PlaceOf(g, 1, n) == Interior(n);
    assert PlaceOf(g, 2, p) == Interior(p);
    assert Used3(g, c, rule, 0, 0, 0);
    assert Weight(0.0, 0) == 1.0;
    assert CornerWeight3(g, c, d, rule, 0, 0, 0) == 1.0;
    assert CornerValue3(g, data, c, d, rule, 0, 0, 0) == data[m + 1][n + 1][p + 1];
    CornerZero3(g, data, c, d, rule, 0, 0, 1);
    CornerZero3(g, data, c, d, rule, 0, 1, 0);
    CornerZero3(g, data, c, d, rule, 0, 1, 1);
    CornerZero3(g, data, c, d, rule, 1, 0, 0);
    CornerZero3(g, data, c, d, rule, 1, 0, 1);
    CornerZero3(g, data, c, d, rule, 1, 1, 0);
    CornerZero3(g, data, c, d, rule, 1, 1, 1);
    assert WeightSum3(g, c, d, rule, 2) == 1.0;
    assert ValueSum3(g, data, c, d, rule, 2) == data[m + 1][n + 1][p + 1];
  }

  /**
   * At the centre of a valid cell the three-axis interpolator returns that cell's value,
   * as written and as intended.
   */
  lemma Interpolation3AtCentre(g: Grid, data: seq<seq<seq<real>>>, m: nat, n: nat, p: nat,
                               rule: Rule, fill: Option<real>)
    requires PointFits(g, 3, [m as real, n as real, p as real]) && Block(g, data)
    requires m < g.shape[0] && n < g.shape[1] && p < g.shape[2]
    ensures Interpolation3(g, data, [m as real, n as real, p as real], fill, true, rule)
            == Ok(data[m + 1][n + 1][p + 1])
  {
    var point := [m as real, n as real, p as real];
    assert (m as real).Floor == m && (n as real).Floor == n && (p as real).Floor == p;
    assert Floors(g, point, true) == [m, n, p];
    assert Fracs(g, point, true) == [0.0, 0.0, 0.0];
    Interpolation3AtCell(g, data, m, n, p, rule, fill);
  }

  /** The number of coordinates of a corner that lie on a boundary. */
  function BoundaryCount(px: Place, py: Place, pz: Place): nat {
    (if px.Boundary? then 1 else 0) + (if py.Boundary? then 1 else 0)
    + (if pz.Boundary? then 1 else 0)
  }

  /**
   * The intended rule uses a corner exactly when no coordinate lies outside and at most one
   * lies on a boundary, the rule of the two-axis interpolator extended to three axes.
   */
  lemma Used3IntendedAtMostOneBoundary(g: Grid, c: seq<int>, i: int, j: int, k: int)
    requires g.Valid() && g.NumAxes() == 3 && |c| == 3
    ensures var px := PlaceOf(g, 0, c[0] + i);
            var py := PlaceOf(g, 1, c[1] + j);
            var pz := PlaceOf(g, 2, c[2] + k);
            Used3(g, c, Intended, i, j, k)
            <==> !px.Outside? && !py.Outside? && !pz.Outside? && BoundaryCount(px, py, pz) <= 1
  {
  }

  /**
   * As written, the code differs from the intended rule in exactly one case: in the second
   * `j` iteration after y lay on a boundary, a corner whose z lies on a boundary is skipped.
   */
  lemma Used3AsWrittenDiffers(g: Grid, c: seq<int>, i: int, j: int, k: int)
    requires g.Valid() && g.NumAxes() == 3 && |c| == 3 && 0 <= j < 2
    ensures Used3(g, c, AsWritten, i, j, k)
            <==> Used3(g, c, Intended, i, j, k)
                 && !(j == 1 && PlaceOf(g, 1, c[1]).Boundary? && PlaceOf(g, 2, c[2] + k).Boundary?)
  {
    if j == 1 && PlaceOf(g, 1, c[1]).Boundary? {
      assert !PlaceOf(g, 1, c[1] + 1).Boundary?;
    }
  }

  /** A non-periodic grid of 2 x 2 x 2 unit cells. */
  function Cube(): (g: Grid)
    ensures g.Valid() && g.NumAxes() == 3
  {
    Grid([0], "CartesianGrid", [2, 2, 2],
         [Bounds(0.0, 2.0), Bounds(0.0, 2.0), Bounds(0.0, 2.0)], [false, false, false],
         ["x", "y", "z"], [], [1.0, 1.0, 1.0],
         [Uniform(1.0), Uniform(1.0), Uniform(1.0)])
  }

  /**
   * At cell coordinates (0.5, -0.5, -0.5) of the 2 x 2 x 2 grid the corner with valid x and
   * y and ghost z (`i = 0, j = 1, k = 0`) lies on one boundary only, but the code as
   * written skips it, while the corner with ghost y and valid z is used.
   */
  lemma Interpolate3SkipsSingleBoundaryCorner()
    ensures var g := Cube();
            var c := Floors(g, [0.5, -0.5, -0.5], true);
            && c == [0, -1, -1]
            && PlaceOf(g, 0, c[0]) == Interior(0)
            && PlaceOf(g, 1, c[1] + 1) == Interior(0)
            && PlaceOf(g, 2, c[2]) == Boundary(-1)
            && !Used3(g, c, AsWritten, 0, 1, 0)
            && Used3(g, c, Intended, 0, 1, 0)
            && Used3(g, c, AsWritten, 0, 0, 1)
  {
    var g := Cube();
    var c := Floors(g, [0.5, -0.5, -0.5], true);
    assert (0.5).Floor == 0 && (-0.5).Floor == -1;
    assert c == [0, -1, -1];
  }

  /** The intended rule treats the y and z axes alike; the code as written does not. */
  lemma Used3IntendedSymmetric(g: Grid, c: seq<int>, i: int, j: int, k: int)
    requires g.Valid() && g.NumAxes() == 3 && |c| == 3
    ensures var h := g.(shape := [g.shape[0], g.shape[2], g.shape[1]],
                        periodic := [g.periodic[0], g.periodic[2], g.periodic[1]],
                        axesBounds := [g.axesBounds[0], g.axesBounds[2], g.axesBounds[1]],
                        axes := [g.axes[0], g.axes[2], g.axes[1]],
                        discretization := [g.discretization[0], g.discretization[2], g.discretization[1]],
                        cellVolumeData := [g.cellVolumeData[0], g.cellVolumeData[2], g.cellVolumeData[1]]);
            h.Valid()
            && (Used3(g, c, Intended, i, j, k) <==> Used3(h, [c[0], c[2], c[1]], Intended, i, k, j))
  {
    var h := g.(shape := [g.shape[0], g.shape[2], g.shape[1]],
                periodic := [g.periodic[0], g.periodic[2], g.periodic[1]],
                axesBounds := [g.axesBounds[0], g.axesBounds[2], g.axesBounds[1]],
                axes := [g.axes[0], g.axes[2], g.axes[1]],
                discretization := [g.discretization[0], g.discretization[2], g.discretization[1]],
                cellVolumeData := [g.cellVolumeData[0], g.cellVolumeData[2], g.cellVolumeData[1]]);
    var c2 := [c[0], c[2], c[1]];
    assert PlaceOf(h, 1, c2[1] + k) == PlaceOf(g, 2, c[2] + k);
    assert PlaceOf(h, 2, c2[2] + j) == PlaceOf(g, 1, c[1] + j);
    assert PlaceOf(h, 0, c2[0] + i) == PlaceOf(g, 0, c[0] + i);
    Used3IntendedAtMostOneBoundary(g, c, i, j, k);
    Used3IntendedAtMostOneBoundary(h, c2, i, k, j);
  }

  // ---------------------------------------------------------------------------------------
  // Dispatch

  /** The full data handed to the interpolator, shaped like the grid (ghost cells included). */
  datatype FullData =
    | Line(line: seq<real>)
    | Sheet(sheet: seq<seq<real>>)
    | Solid(cube: seq<seq<seq<real>>>)
    | Higher

  /** Whether `data` has the full shape of `g`; grids of more than three axes take any data. */
  predicate Shaped(g: Grid, data: FullData)
    requires g.Valid()
  {
    if g.NumAxes() == 1 then data.Line? && |data.line| == g.shape[0] + 2
    else if g.NumAxes() == 2 then data.Sheet? && Plane(g, data.sheet)
    else if g.NumAxes() == 3 then data.Solid? && Block(g, data.cube)
    else true
  }

  /**
   * `_make_interpolator_full_compiled` followed by a call of the function it returns:
   * specialised for one, two and three axes, a NotImplementedError for more. Three axes run
   * the loops as written, with the boundary flag carried from one `j` to the next.
   */
  method InterpolateFull(g: Grid, data: FullData, point: seq<real>, fill: Option<real>,
                         cellCoords: bool) returns (r: Result<real>)
    requires g.Valid() && |point| == g.NumAxes() && Shaped(g, data)
    ensures g.NumAxes() > 3 <==> r == Err(NotImplementedError)
    ensures g.NumAxes() == 1 ==> r == Interpolate1(g, data.line, point[0], fill, cellCoords)
    ensures g.NumAxes() == 2 ==> r == Interpolation2(g, data.sheet, point, fill, cellCoords)
    ensures g.NumAxes() == 3 ==> r == Interpolation3(g, data.cube, point, fill, cellCoords, AsWritten)
  {
    if g.NumAxes() == 1 {
      assert point == [point[0]];
      r := Interpolate1(g, data.line, point[0], fill, cellCoords);
      assert r.Err? ==> r.error == DomainError;
    } else if g.NumAxes() == 2 {
      r := Interpolate2(g, data.sheet, point, fill, cellCoords);
      assert r.Err? ==> r.error == DomainError;
    } else if g.NumAxes() == 3 {
      r := Interpolate3AsWritten(g, data.cube, point, fill, cellCoords);
      assert r.Err? ==> r.error == DomainError;
    } else {
      r := Err(NotImplementedError);
    }
  }
}

/**
 * The inserters built by `make_inserter_compiled`: an `amount` (an integrated quantity, the
 * field value times the cell volume) is spread over the cells around a point, in place in
 * the valid data of a field, specialised for one, two and three axes. Data are flat and
 * row-major over the grid's shape.
 */
module Insertion {
  import opened Wrappers
  import opened RowMajor
  import opened Grids
  import opened Integration
  import Interpolation

  /** The cell volumes of the grid, flat and row-major. */
  function Volumes(g: Grid): (r: seq<real>)
    requires g.Valid()
    ensures |r| == CellCount(g.shape) && forall k :: 0 <= k < |r| ==> r[k] > 0.0
  {
    CellVolumesPositive(g.cellVolumeData, g.shape);
    CellVolumes(g.cellVolumeData, g.shape)
  }

  /** The lower neighbouring cell `c` and the fraction `d` past it along every axis. */
  datatype Stencil = Stencil(c: seq<int>, d: seq<real>)

  /** Whether the stencil has `n` axes with fractions in `[0, 1)`. */
  predicate StencilHas(s: Stencil, n: nat) {
    |s.c| == n && |s.d| == n && forall a :: 0 <= a < |s.d| ==> 0.0 <= s.d[a] < 1.0
  }

  predicate StencilFits(g: Grid, s: Stencil) {
    g.Valid() && StencilHas(s, g.NumAxes())
  }

  /** `divmod((point[a] - lo) / dx - 0.5, 1.0)` along every axis. */
  function StencilOf(g: Grid, point: seq<real>): (s: Stencil)
    requires g.Valid() && |point| == g.NumAxes()
    ensures StencilFits(g, s)
  {
    Stencil(Interpolation.Floors(g, point, false), Interpolation.Fracs(g, point, false))
  }

  // ---------------------------------------------------------------------------------------
  // Corners of the neighbourhood

  /** Whether every corner lists `n` offsets, each 0 (the lower cell) or 1 (the upper one). */
  predicate CornersFit(cs: seq<seq<int>>, n: nat) {
    forall k :: 0 <= k < |cs| ==> |cs[k]| == n && forall a :: 0 <= a < n ==> 0 <= cs[k][a] <= 1
  }

  /** The corners in the order of the nested loops, the last axis innermost. */
  const Corners1: seq<seq<int>> := [[0], [1]]
  const Corners2: seq<seq<int>> := [[0, 0], [0, 1], [1, 0], [1, 1]]
  const Corners3: seq<seq<int>> :=
    [[0, 0, 0], [0, 0, 1], [0, 1, 0], [0, 1, 1], [1, 0, 0], [1, 0, 1], [1, 1, 0], [1, 1, 1]]

  /**
   * Where coordinate `c` deposits along an axis of `size` cells: wrapped into the grid when
   * the axis is periodic, kept when it is a valid cell, nowhere otherwise (there are no ghost
   * cells here). `Interpolation.Wrap` is Python's `%` (`Interpolation.WrapMod`).
   */
  function Wrap(periodic: bool, size: nat, c: int): (t: Option<int>)
    requires size > 0
    ensures t.Some? ==> 0 <= t.value < size
    ensures t.None? <==> !periodic && !(0 <= c < size)
    ensures !periodic && t.Some? ==> t.value == c
  {
    if periodic then Some(Interpolation.Wrap(c, size))
    else if 0 <= c < size then Some(c)
    else None
  }

  /** Where coordinate `c` deposits along axis `a` of the grid. */
  function Target(g: Grid, a: nat, c: int): Option<int>
    requires g.Valid() && a < g.NumAxes()
  {
    Wrap(g.periodic[a], g.shape[a], c)
  }

  /** The target of a corner along every axis. */
  function Targets(g: Grid, s: Stencil, bits: seq<int>): (ts: seq<Option<int>>)
    requires StencilFits(g, s) && |bits| == g.NumAxes()
    ensures |ts| == |bits|
    ensures forall a :: 0 <= a < |ts| ==> ts[a].Some? ==> 0 <= ts[a].value < g.shape[a]
  {
    seq(|bits|, a requires 0 <= a < |bits| => Target(g, a, s.c[a] + bits[a]))
  }

  /** The cell corner `bits` deposits into: one exists only when every axis has a target. */
  function CornerCell(g: Grid, s: Stencil, bits: seq<int>): (r: Option<seq<int>>)
    requires StencilFits(g, s) && |bits| == g.NumAxes()
    ensures r.Some? ==> InBounds(r.value, g.shape)
  {
    var ts := Targets(g, s, bits);
    if forall a :: 0 <= a < |ts| ==> ts[a].Some? then
      Some(seq(|ts|, a requires 0 <= a < |ts| => ts[a].value))
    else None
  }

  /**
   * The product of two weights. Products of weights are kept behind this name so that the
   * solver treats them as single terms unless a proof asks for more.
   */
  function Times(x: real, y: real): real {
    x * y
  }

  /** The product of the per-axis weights `(1 - d, d)[bit]` of a corner, first axis first. */
  function CornerWeight(d: seq<real>, bits: seq<int>): (w: real)
    requires |bits| <= |d|
    requires forall a :: 0 <= a < |bits| ==> 0.0 <= d[a] < 1.0 && 0 <= bits[a] <= 1
    ensures 0.0 <= w <= 1.0
    decreases |bits|
  {
    if |bits| == 0 then 1.0
    else
      var n := |bits| - 1;
      var rest := CornerWeight(d, bits[..n]);
      var w := Interpolation.Weight(d[n], bits[n]);
      UnitProduct(rest, w);
      Times(rest, w)
  }

  lemma UnitProduct(x: real, y: real)
    requires 0.0 <= x <= 1.0 && 0.0 <= y <= 1.0
    ensures 0.0 <= Times(x, y) <= 1.0
  {
    assert x * y <= 1.0 * y by { assert (1.0 - x) * y >= 0.0; }
  }

  // ---------------------------------------------------------------------------------------
  // The plan: which cell every corner deposits into, with which weight

  /** A corner that has a cell: the flat position of the cell and the corner's weight. */
  datatype Hit = Hit(cell: nat, weight: real)

  /** What corner `bits` contributes: nothing when it has no cell. */
  function HitOf(g: Grid, s: Stencil, bits: seq<int>): (h: Option<Hit>)
    requires StencilFits(g, s) && |bits| == g.NumAxes()
    requires forall a :: 0 <= a < |bits| ==> 0 <= bits[a] <= 1
    ensures h.Some? <==> CornerCell(g, s, bits).Some?
    ensures h.Some? ==> h.value.cell < CellCount(g.shape) && 0.0 <= h.value.weight <= 1.0
  {
    match CornerCell(g, s, bits)
    case None => None
    case Some(idx) => Some(Hit(Flatten(idx, g.shape), CornerWeight(s.d, bits)))
  }

  /** Whether every hit lands in one of `n` cells and carries a non-negative weight. */
  predicate HitsFit(hits: seq<Option<Hit>>, n: nat) {
    forall m :: 0 <= m < |hits| && hits[m].Some? ==>
      hits[m].value.cell < n && 0.0 <= hits[m].value.weight
  }

  /** The hits of the corners `cs`, in loop order. */
  function Hits(g: Grid, s: Stencil, cs: seq<seq<int>>): (hits: seq<Option<Hit>>)
    requires StencilFits(g, s) && CornersFit(cs, g.NumAxes())
    ensures |hits| == |cs| && HitsFit(hits, CellCount(g.shape))
    decreases |cs|
  {
    if |cs| == 0 then []
    else Hits(g, s, cs[..|cs| - 1]) + [HitOf(g, s, cs[|cs| - 1])]
  }

  lemma {:induction false} HitsAt(g: Grid, s: Stencil, cs: seq<seq<int>>, m: nat)
    requires StencilFits(g, s) && CornersFit(cs, g.NumAxes()) && m < |cs|
    ensures Hits(g, s, cs)[m] == HitOf(g, s, cs[m])
    decreases |cs|
  {
    var n := |cs| - 1;
    if m < n {
      HitsAt(g, s, cs[..n], m);
    }
  }

  /** The weight a hit adds to `total_weight`. */
  function WeightOf(h: Option<Hit>): real {
    if h.Some? then h.value.weight else 0.0
  }

  /** The weights of the first `n` hits, summed in loop order. */
  function Weights(hits: seq<Option<Hit>>, n: nat): real
    requires n <= |hits|
  {
    if n == 0 then 0.0 else Weights(hits, n - 1) + WeightOf(hits[n - 1])
  }

  /** `total_weight`: the weights of the corners that have a cell. */
  function TotalWeight(g: Grid, s: Stencil, cs: seq<seq<int>>): real
    requires StencilFits(g, s) && CornersFit(cs, g.NumAxes())
  {
    Weights(Hits(g, s, cs), |cs|)
  }

  /** The flat positions of the cells the first `n` hits deposit into. */
  function CellsOf(hits: seq<Option<Hit>>, n: nat): set<nat>
    requires n <= |hits|
  {
    if n == 0 then {}
    else CellsOf(hits, n - 1) + if hits[n - 1].Some? then {hits[n - 1].value.cell} else {}
  }

  /** Whether every cell has a positive volume. */
  predicate PositiveVolumes(vols: seq<real>) {
    forall k :: 0 <= k < |vols| ==> vols[k] > 0.0
  }

  /**
   * The second pair of loops: `data[c] += w * amount / cell_volume(c)` with
   * `w = weight / total_weight`, for the first `n` hits in loop order; `vols` holds
   * `cell_volume`.
   */
  function Apply(hits: seq<Option<Hit>>, n: nat, data: seq<real>, vols: seq<real>, total: real,
                 amount: real): (r: seq<real>)
    requires n <= |hits| && HitsFit(hits, |data|) && |vols| == |data| && PositiveVolumes(vols)
    requires total != 0.0
    ensures |r| == |data|
  {
    if n == 0 then data
    else
      var prev := Apply(hits, n - 1, data, vols, total, amount);
      match hits[n - 1]
      case None => prev
      case Some(h) => prev[h.cell := prev[h.cell] + Increment(h.weight, total, amount, vols[h.cell])]
  }

  /** `w * amount / cell_vol` with `w = weight / total_weight`. */
  function Increment(weight: real, total: real, amount: real, cellVol: real): real
    requires total != 0.0 && cellVol != 0.0
  {
    weight / total * amount / cellVol
  }

  /** The share `amount * weight / total` of the amount that a weight stands for. */
  function Share(amount: real, weight: real, total: real): real
    requires total != 0.0
  {
    amount * weight / total
  }

  /** An increment times the volume of its cell is the share of its weight. */
  lemma IncrementTimesVolume(weight: real, total: real, amount: real, cellVol: real)
    requires total != 0.0 && cellVol != 0.0
    ensures cellVol * Increment(weight, total, amount, cellVol) == Share(amount, weight, total)
  {
    var q := weight / total * amount;
    assert cellVol * (q / cellVol) == q;
    assert q == amount * weight / total;
  }

  lemma ShareAdd(amount: real, x: real, y: real, total: real)
    requires total != 0.0
    ensures Share(amount, x, total) + Share(amount, y, total) == Share(amount, x + y, total)
  {
    assert amount * x / total == (amount * x) * (1.0 / total);
    assert amount * y / total == (amount * y) * (1.0 / total);
    assert amount * (x + y) / total == (amount * x + amount * y) * (1.0 / total);
  }

  lemma ShareWhole(amount: real, total: real)
    requires total != 0.0
    ensures Share(amount, total, total) == amount
  {
  }

  lemma ShareNone(amount: real, total: real)
    requires total != 0.0
    ensures Share(amount, 0.0, total) == 0.0
  {
  }

  /**
   * What the two- and three-axis inserters do: a DomainError, with the data untouched, when
   * the corners that have a cell carry no weight, otherwise the deposits.
   */
  function Insertion(g: Grid, s: Stencil, cs: seq<seq<int>>, data: seq<real>, amount: real)
    : (r: Result<seq<real>>)
    requires StencilFits(g, s) && CornersFit(cs, g.NumAxes()) && |data| == CellCount(g.shape)
    ensures r.Err? ==> r.error == DomainError && TotalWeight(g, s, cs) == 0.0
    ensures r.Ok? ==> |r.value| == |data|
  {
    var total := TotalWeight(g, s, cs);
    if total == 0.0 then Err(DomainError)
    else Ok(Apply(Hits(g, s, cs), |cs|, data, Volumes(g), total, amount))
  }

  // ---------------------------------------------------------------------------------------
  // Conservation of the inserted amount

  /** Raising one entry by `delta` raises the weighted sum by its weight times `delta`. */
  lemma {:induction false} WeightedSumUpdate(xs: seq<real>, ws: seq<real>, k: nat, delta: real)
    requires |xs| == |ws| && k < |xs|
    ensures WeightedSum(xs[k := xs[k] + delta], ws) == WeightedSum(xs, ws) + ws[k] * delta
    decreases |xs|
  {
    var n := |xs| - 1;
    var ys := xs[k := xs[k] + delta];
    if k == n {
      assert ys[..n] == xs[..n];
    } else {
      assert ys[..n] == xs[..n][k := xs[k] + delta];
      WeightedSumUpdate(xs[..n], ws[..n], k, delta);
    }
  }

  /** The deposits of the first `n` hits raise the integral by the share of their weight. */
  lemma {:induction false} ApplyMass(hits: seq<Option<Hit>>, n: nat, data: seq<real>,
                                     vols: seq<real>, total: real, amount: real)
    requires n <= |hits| && HitsFit(hits, |data|) && |vols| == |data| && PositiveVolumes(vols)
    requires total != 0.0
    ensures WeightedSum(Apply(hits, n, data, vols, total, amount), vols)
            == WeightedSum(data, vols) + Share(amount, Weights(hits, n), total)
  {
    if n == 0 {
      ShareNone(amount, total);
    } else {
      var prev := Apply(hits, n - 1, data, vols, total, amount);
      ApplyMass(hits, n - 1, data, vols, total, amount);
      match hits[n - 1]
      case None =>
      case Some(h) =>
        DepositOneMass(prev, vols, h.cell, h.weight, Weights(hits, n - 1), total, amount,
                       WeightedSum(data, vols));
    }
  }

  /** One deposit adds the share of its weight to the integral. */
  lemma DepositOneMass(prev: seq<real>, vols: seq<real>, k: nat, cw: real, before: real,
                       total: real, amount: real, start: real)
    requires |prev| == |vols| && k < |prev| && vols[k] != 0.0 && total != 0.0
    requires WeightedSum(prev, vols) == start + Share(amount, before, total)
    ensures WeightedSum(prev[k := prev[k] + Increment(cw, total, amount, vols[k])], vols)
            == start + Share(amount, before + cw, total)
  {
    WeightedSumUpdate(prev, vols, k, Increment(cw, total, amount, vols[k]));
    IncrementTimesVolume(cw, total, amount, vols[k]);
    ShareAdd(amount, before, cw, total);
  }

  /**
   * Mass conservation: when the inserter does not raise, the integral of the field grows by
   * exactly `amount`.
   */
  lemma InsertionConservesMass(g: Grid, s: Stencil, cs: seq<seq<int>>, data: seq<real>,
                               amount: real)
    requires StencilFits(g, s) && CornersFit(cs, g.NumAxes()) && |data| == CellCount(g.shape)
    ensures Insertion(g, s, cs, data, amount).Ok? ==>
              WeightedSum(Insertion(g, s, cs, data, amount).value, Volumes(g))
              == WeightedSum(data, Volumes(g)) + amount
  {
    var total := TotalWeight(g, s, cs);
    if total != 0.0 {
      ApplyMass(Hits(g, s, cs), |cs|, data, Volumes(g), total, amount);
      ShareWhole(amount, total);
    }
  }

  /** Only the cells of the first `n` hits change. */
  lemma {:induction false} ApplyElsewhere(hits: seq<Option<Hit>>, n: nat, data: seq<real>,
                                          vols: seq<real>, total: real, amount: real, k: nat)
    requires n <= |hits| && HitsFit(hits, |data|) && |vols| == |data| && PositiveVolumes(vols)
    requires total != 0.0 && k < |data| && k !in CellsOf(hits, n)
    ensures Apply(hits, n, data, vols, total, amount)[k] == data[k]
  {
    if n > 0 {
      ApplyElsewhere(hits, n - 1, data, vols, total, amount, k);
    }
  }

  /** The first `n` hits change at most `n` cells, all of them among the first `size`. */
  lemma {:induction false} CellsAtMostHits(hits: seq<Option<Hit>>, n: nat, size: nat)
    requires n <= |hits| && HitsFit(hits, size)
    ensures |CellsOf(hits, n)| <= n
    ensures forall k :: k in CellsOf(hits, n) ==> k < size
  {
    if n > 0 {
      CellsAtMostHits(hits, n - 1, size);
    }
  }

  /**
   * What the inserter promises about one call: it raises a DomainError exactly when the
   * corners with a cell carry no weight; otherwise the integral grows by `amount` and only
   * the at most `|cs|` cells of the corners change.
   */
  lemma InsertionEffect(g: Grid, s: Stencil, cs: seq<seq<int>>, data: seq<real>, amount: real)
    requires StencilFits(g, s) && CornersFit(cs, g.NumAxes()) && |data| == CellCount(g.shape)
    ensures Insertion(g, s, cs, data, amount).Err? <==> TotalWeight(g, s, cs) == 0.0
    ensures Insertion(g, s, cs, data, amount).Ok? ==>
              var after := Insertion(g, s, cs, data, amount).value;
              var cells := CellsOf(Hits(g, s, cs), |cs|);
              && |after| == |data|
              && WeightedSum(after, Volumes(g)) == WeightedSum(data, Volumes(g)) + amount
              && (forall k :: 0 <= k < |data| && k !in cells ==> after[k] == data[k])
              && |cells| <= |cs|
  {
    InsertionConservesMass(g, s, cs, data, amount);
    var hits := Hits(g, s, cs);
    CellsAtMostHits(hits, |cs|, CellCount(g.shape));
    var total := TotalWeight(g, s, cs);
    if total != 0.0 {
      forall k | 0 <= k < |data| && k !in CellsOf(hits, |cs|)
        ensures Apply(hits, |cs|, data, Volumes(g), total, amount)[k] == data[k]
      {
        ApplyElsewhere(hits, |cs|, data, Volumes(g), total, amount, k);
      }
    }
  }

  // ---------------------------------------------------------------------------------------
  // The weights of the corners

  /** The weight of a two-axis corner, written out. */
  lemma CornerWeight2(d: seq<real>, i: int, j: int)
    requires |d| == 2 && forall a :: 0 <= a < 2 ==> 0.0 <= d[a] < 1.0
    requires 0 <= i <= 1 && 0 <= j <= 1
    ensures CornerWeight(d, [i, j])
            == Times(Interpolation.Weight(d[0], i), Interpolation.Weight(d[1], j))
  {
    var w0 := Interpolation.Weight(d[0], i);
    var w1 := Interpolation.Weight(d[1], j);
    assert [i, j][..1] == [i] && [i][..0] == [];
    assert CornerWeight(d, [i]) == Times(1.0, w0) == w0;
    assert CornerWeight(d, [i, j]) == Times(CornerWeight(d, [i]), w1);
  }

  /** A corner's weight splits between its two extensions along the next axis. */
  lemma WeightsSplit(x: real, lo: real, hi: real)
    requires lo + hi == 1.0
    ensures Times(x, lo) + Times(x, hi) == x
  {
    assert x * lo + x * hi == x * (lo + hi);
  }

  /** The weight of a three-axis corner, written out. */
  lemma CornerWeight3(d: seq<real>, i: int, j: int, k: int)
    requires |d| == 3 && forall a :: 0 <= a < 3 ==> 0.0 <= d[a] < 1.0
    requires 0 <= i <= 1 && 0 <= j <= 1 && 0 <= k <= 1
    ensures CornerWeight(d, [i, j, k])
            == Times(Times(Interpolation.Weight(d[0], i), Interpolation.Weight(d[1], j)),
                     Interpolation.Weight(d[2], k))
  {
    var w0 := Interpolation.Weight(d[0], i);
    var w1 := Interpolation.Weight(d[1], j);
    var w2 := Interpolation.Weight(d[2], k);
    assert [i, j, k][..2] == [i, j] && [i, j][..1] == [i] && [i][..0] == [];
    assert CornerWeight(d, [i]) == Times(1.0, w0) == w0;
    assert CornerWeight(d, [i, j]) == Times(CornerWeight(d, [i]), w1);
    assert CornerWeight(d, [i, j, k]) == Times(CornerWeight(d, [i, j]), w2);
  }

  /** Corner `(i, j)` of a two-axis stencil: its position in loop order, its cell and its weight. */
  lemma Corner2(g: Grid, s: Stencil, i: int, j: int)
    requires StencilFits(g, s) && g.NumAxes() == 2 && 0 <= i <= 1 && 0 <= j <= 1
    ensures Corners2[2 * i + j] == [i, j]
    ensures CornerCell(g, s, [i, j]).Some?
            <==> Target(g, 0, s.c[0] + i).Some? && Target(g, 1, s.c[1] + j).Some?
    ensures CornerCell(g, s, [i, j]).Some? ==>
              CornerCell(g, s, [i, j]).value
              == [Target(g, 0, s.c[0] + i).value, Target(g, 1, s.c[1] + j).value]
    ensures CornerWeight(s.d, [i, j])
            == Times(Interpolation.Weight(s.d[0], i), Interpolation.Weight(s.d[1], j))
  {
    CornerWeight2(s.d, i, j);
    var ts := Targets(g, s, [i, j]);
    assert ts[0] == Target(g, 0, s.c[0] + i) && ts[1] == Target(g, 1, s.c[1] + j);
    if ts[0].Some? && ts[1].Some? {
      var v := CornerCell(g, s, [i, j]).value;
      assert v[0] == ts[0].value && v[1] == ts[1].value;
    }
  }

  /** Corner `(i, j, k)` of a three-axis stencil: its position in loop order, its cell and its weight. */
  lemma Corner3(g: Grid, s: Stencil, i: int, j: int, k: int)
    requires StencilFits(g, s) && g.NumAxes() == 3
    requires 0 <= i <= 1 && 0 <= j <= 1 && 0 <= k <= 1
    ensures Corners3[4 * i + 2 * j + k] == [i, j, k]
    ensures CornerCell(g, s, [i, j, k]).Some?
            <==> Target(g, 0, s.c[0] + i).Some? && Target(g, 1, s.c[1] + j).Some?
                 && Target(g, 2, s.c[2] + k).Some?
    ensures CornerCell(g, s, [i, j, k]).Some? ==>
              CornerCell(g, s, [i, j, k]).value
              == [Target(g, 0, s.c[0] + i).value, Target(g, 1, s.c[1] + j).value,
                  Target(g, 2, s.c[2] + k).value]
    ensures CornerWeight(s.d, [i, j, k])
            == Times(Times(Interpolation.Weight(s.d[0], i), Interpolation.Weight(s.d[1], j)),
                     Interpolation.Weight(s.d[2], k))
  {
    CornerWeight3(s.d, i, j, k);
    var ts := Targets(g, s, [i, j, k]);
    assert ts[0] == Target(g, 0, s.c[0] + i) && ts[1] == Target(g, 1, s.c[1] + j)
           && ts[2] == Target(g, 2, s.c[2] + k);
    if ts[0].Some? && ts[1].Some? && ts[2].Some? {
      var v := CornerCell(g, s, [i, j, k]).value;
      assert v[0] == ts[0].value && v[1] == ts[1].value && v[2] == ts[2].value;
    }
  }

  // ---------------------------------------------------------------------------------------
  // The loops of the compiled inserters
  //
  // The compiled inserters capture the sizes and periodicity flags of the axes and walk the
  // corners in nested loops, the last axis innermost. Each pass is proved against the plan
  // `Hits`, corner `(i, j, k)` being entry `4 * i + 2 * j + k` (`2 * i + j` on two axes).

  /** Whether `shape` and `periodic` describe `n` axes with at least one cell each. */
  predicate AxesHave(shape: seq<nat>, periodic: seq<bool>, n: nat) {
    |shape| == n && |periodic| == n && Positive(shape)
  }

  /** Two more corners add their weights. */
  lemma WeightsPair(hits: seq<Option<Hit>>, m: nat)
    requires m + 2 <= |hits|
    ensures Weights(hits, m + 2) == Weights(hits, m) + WeightOf(hits[m]) + WeightOf(hits[m + 1])
  {
  }

  /** Corners without a cell add no weight. */
  lemma {:induction false} WeightsMisses(hits: seq<Option<Hit>>, m: nat, n: nat)
    requires m <= n <= |hits|
    requires forall l :: m <= l < n ==> hits[l].None?
    ensures Weights(hits, n) == Weights(hits, m)
    decreases n - m
  {
    if m < n {
      WeightsMisses(hits, m, n - 1);
    }
  }

  /** Corners without a cell leave the deposits as they are. */
  lemma {:induction false} ApplyMisses(hits: seq<Option<Hit>>, m: nat, n: nat, data: seq<real>,
                                       vols: seq<real>, total: real, amount: real)
    requires m <= n <= |hits| && HitsFit(hits, |data|) && |vols| == |data|
    requires PositiveVolumes(vols) && total != 0.0
    requires forall l :: m <= l < n ==> hits[l].None?
    ensures Apply(hits, n, data, vols, total, amount) == Apply(hits, m, data, vols, total, amount)
    decreases n - m
  {
    if m < n {
      ApplyMisses(hits, m, n - 1, data, vols, total, amount);
    }
  }

  /** A corner with cell `k` and weight `w` adds its increment there. */
  lemma ApplyHit(hits: seq<Option<Hit>>, m: nat, data: seq<real>, vols: seq<real>, total: real,
                 amount: real, k: nat, w: real)
    requires m < |hits| && HitsFit(hits, |data|) && |vols| == |data| && PositiveVolumes(vols)
    requires total != 0.0 && hits[m] == Some(Hit(k, w))
    ensures k < |data|
    ensures var prev := Apply(hits, m, data, vols, total, amount);
            Apply(hits, m + 1, data, vols, total, amount)
            == prev[k := prev[k] + Increment(w, total, amount, vols[k])]
  {
  }

  /** `cell_volume(c)` for every flat cell `c`, through the compiled lookup. */
  function CompiledVolumes(g: Grid): (vols: seq<real>)
    requires g.Valid()
    ensures vols == Volumes(g)
  {
    var n := CellCount(g.shape);
    var vols := seq(n, k requires 0 <= k < n => CellVolumeCompiled(g.cellVolumeData, g.shape, k));
    assert forall k :: 0 <= k < n ==> vols[k] == Volumes(g)[k] by {
      forall k | 0 <= k < n ensures vols[k] == Volumes(g)[k] {
        CellVolumeCompiledIsCellVolume(g.cellVolumeData, g.shape, k);
      }
    }
    vols
  }

  // ---------------------------------------------------------------------------------------
  // One axis
  //
  // The one-axis inserter does not sum weights: it treats the lower and the upper cell case
  // by case, and where only one of them is a valid cell it deposits the whole amount there.
  // Its deposits are written as hits whose weights already add up to 1 (a total of 1).

  /**
   * The deposits of the one-axis inserter for lower cell `s.c[0]` and fraction `s.d[0]`, in
   * order; None when both cells lie outside a non-periodic axis.
   */
  function Plan1(periodic: bool, size: nat, s: Stencil): (p: Option<seq<Option<Hit>>>)
    requires size > 0 && StencilHas(s, 1)
    ensures p.Some? ==> 1 <= |p.value| <= 2 && HitsFit(p.value, size)
  {
    var lo, hi, d := s.c[0], s.c[0] + 1, s.d[0];
    if periodic then Some([Some(Hit(Interpolation.Wrap(lo, size), 1.0 - d)), Some(Hit(Interpolation.Wrap(hi, size), d))])
    else if hi < 0 || lo > size - 1 then None
    else if lo == -1 then Some([Some(Hit(hi, 1.0))])
    else if lo == size - 1 then Some([Some(Hit(lo, 1.0))])
    else Some([Some(Hit(lo, 1.0 - d)), Some(Hit(hi, d))])
  }

  /**
   * The plan is refused exactly when both cells lie outside a non-periodic axis; otherwise
   * its cells are valid and its weights add up to 1, so the whole amount is deposited.
   */
  lemma Plan1Sound(periodic: bool, size: nat, s: Stencil)
    requires size > 0 && StencilHas(s, 1)
    ensures Plan1(periodic, size, s).None?
            <==> !periodic && (s.c[0] + 1 < 0 || s.c[0] > size - 1)
    ensures Plan1(periodic, size, s).Some? ==>
              var hits := Plan1(periodic, size, s).value;
              Weights(hits, |hits|) == 1.0
  {
    var d := s.d[0];
    var p := Plan1(periodic, size, s);
    if p.Some? {
      var hits := p.value;
      if |hits| == 2 {
        WeightsPair(hits, 0);
        assert Weights(hits, 2) == 0.0 + (1.0 - d) + d;
      }
    }
  }

  /** What the one-axis inserter does to the flat data. */
  function Insertion1(g: Grid, s: Stencil, data: seq<real>, amount: real)
    : (r: Result<seq<real>>)
    requires StencilFits(g, s) && g.NumAxes() == 1 && |data| == CellCount(g.shape)
    ensures r.Err? ==> r.error == DomainError
    ensures r.Ok? ==> |r.value| == |data|
  {
    CellCountOne(g.shape);
    Plan1Sound(g.periodic[0], g.shape[0], s);
    match Plan1(g.periodic[0], g.shape[0], s)
    case None => Err(DomainError)
    case Some(hits) => Ok(Apply(hits, |hits|, data, Volumes(g), 1.0, amount))
  }

  lemma CellCountOne(shape: seq<nat>)
    requires |shape| == 1
    ensures CellCount(shape) == shape[0]
  {
    assert shape[..0] == [];
  }

  /**
   * Mass conservation on one axis: when the inserter does not raise, the integral of the
   * field grows by exactly `amount`, and only the at most two planned cells change.
   */
  lemma Insertion1Effect(g: Grid, s: Stencil, data: seq<real>, amount: real)
    requires StencilFits(g, s) && g.NumAxes() == 1 && |data| == CellCount(g.shape)
    ensures Insertion1(g, s, data, amount).Err?
            <==> !g.periodic[0] && (s.c[0] + 1 < 0 || s.c[0] > g.shape[0] - 1)
    ensures Insertion1(g, s, data, amount).Ok? ==>
              var after := Insertion1(g, s, data, amount).value;
              var hits := Plan1(g.periodic[0], g.shape[0], s).value;
              && WeightedSum(after, Volumes(g)) == WeightedSum(data, Volumes(g)) + amount
              && forall k :: 0 <= k < |data| && k !in CellsOf(hits, |hits|) ==> after[k] == data[k]
  {
    CellCountOne(g.shape);
    Plan1Sound(g.periodic[0], g.shape[0], s);
    var p := Plan1(g.periodic[0], g.shape[0], s);
    if p.Some? {
      var hits := p.value;
      ApplyMass(hits, |hits|, data, Volumes(g), 1.0, amount);
      ShareWhole(amount, 1.0);
      forall k | 0 <= k < |data| && k !in CellsOf(hits, |hits|)
        ensures Apply(hits, |hits|, data, Volumes(g), 1.0, amount)[k] == data[k]
      {
        ApplyElsewhere(hits, |hits|, data, Volumes(g), 1.0, amount, k);
      }
    }
  }

  /** An increment normalised by its own weight is the whole amount over the volume. */
  lemma IncrementWhole(weight: real, amount: real, cellVol: real)
    requires weight != 0.0 && cellVol != 0.0
    ensures Increment(weight, weight, amount, cellVol) == Increment(1.0, 1.0, amount, cellVol)
  {
  }

  /** The hit of corner `[b]` of a one-axis stencil. */
  lemma HitOf1(g: Grid, s: Stencil, b: int)
    requires StencilFits(g, s) && g.NumAxes() == 1 && 0 <= b <= 1
    ensures HitOf(g, s, [b])
            == var t := Target(g, 0, s.c[0] + b);
               if t.Some? then Some(Hit(t.value, Interpolation.Weight(s.d[0], b))) else None
  {
    var t := Target(g, 0, s.c[0] + b);
    var ts := Targets(g, s, [b]);
    assert ts[0] == t;
    assert [b][..0] == [];
    assert CornerWeight(s.d, [b]) == Times(1.0, Interpolation.Weight(s.d[0], b));
    if t.Some? {
      var idx := CornerCell(g, s, [b]).value;
      assert idx == [t.value];
      assert idx[..0] == [] && g.shape[..0] == [];
      assert Flatten(idx, g.shape) == Mul(0, g.shape[0]) + t.value;
    }
  }

  /** The corner plan of a one-axis stencil: the lower and the upper cell, in that order. */
  lemma Hits1(g: Grid, s: Stencil)
    requires StencilFits(g, s) && g.NumAxes() == 1
    ensures CornersFit(Corners1, 1)
    ensures var lo, hi := Target(g, 0, s.c[0]), Target(g, 0, s.c[0] + 1);
            Hits(g, s, Corners1)
            == [if lo.Some? then Some(Hit(lo.value, 1.0 - s.d[0])) else None,
                if hi.Some? then Some(Hit(hi.value, s.d[0])) else None]
  {
    HitsAt(g, s, Corners1, 0);
    HitsAt(g, s, Corners1, 1);
    HitOf1(g, s, 0);
    HitOf1(g, s, 1);
  }

  /**
   * The one-axis inserter deposits what the corner scheme of the two- and three-axis
   * inserters would deposit on one axis, except at one point of a non-periodic axis: the
   * centre of the cell below the first one (`c = -1`, `d = 0`). There the lower corner has no
   * cell and the upper one has weight 0, so the corner scheme raises a DomainError, while the
   * one-axis inserter deposits the whole amount in the first cell.
   */
  lemma Insertion1MatchesCorners(g: Grid, s: Stencil, data: seq<real>, amount: real)
    requires StencilFits(g, s) && g.NumAxes() == 1 && |data| == CellCount(g.shape)
    ensures CornersFit(Corners1, 1)
    ensures if !g.periodic[0] && s.c[0] == -1 && s.d[0] == 0.0
            then Insertion(g, s, Corners1, data, amount).Err?
                 && Insertion1(g, s, data, amount).Ok?
            else Insertion(g, s, Corners1, data, amount) == Insertion1(g, s, data, amount)
  {
    CellCountOne(g.shape);
    Hits1(g, s);
    var hits := Hits(g, s, Corners1);
    var vols := Volumes(g);
    var c, d, size := s.c[0], s.d[0], g.shape[0];
    WeightsPair(hits, 0);
    if g.periodic[0] || 0 <= c < size - 1 {
      assert Weights(hits, 2) == 0.0 + (1.0 - d) + d;
    } else if c == -1 && d != 0.0 {
      LoneHit(hits, 1, data, vols, amount, 0, d);
    } else if c == size - 1 && 1.0 - d != 0.0 {
      LoneHit(hits, 0, data, vols, amount, size - 1, 1.0 - d);
    }
  }

  /**
   * Two corners of which only corner `m` has a cell, `k`: normalised by their total weight
   * they deposit the whole amount in `k`.
   */
  lemma LoneHit(hits: seq<Option<Hit>>, m: nat, data: seq<real>, vols: seq<real>, amount: real,
                k: nat, w: real)
    requires |hits| == 2 && m < 2 && hits[m] == Some(Hit(k, w)) && hits[1 - m].None?
    requires HitsFit(hits, |data|) && |vols| == |data| && PositiveVolumes(vols) && w != 0.0
    ensures Weights(hits, 2) == w
    ensures Apply(hits, 2, data, vols, w, amount)
            == Apply([Some(Hit(k, 1.0))], 1, data, vols, 1.0, amount)
  {
    WeightsPair(hits, 0);
    IncrementWhole(w, amount, vols[k]);
    var lone := [Some(Hit(k, 1.0))];
    assert Apply(lone, 1, data, vols, 1.0, amount)
           == data[k := data[k] + Increment(1.0, 1.0, amount, vols[k])];
    if m == 0 {
      ApplyHit(hits, 0, data, vols, w, amount, k, w);
    } else {
      assert Apply(hits, 1, data, vols, w, amount) == data;
      ApplyHit(hits, 1, data, vols, w, amount, k, w);
    }
  }

  /**
   * Whether an inserter that reported `r` and turned `before` into `after` did what `spec`
   * says: it fails with the error of `spec`, the data untouched, exactly when `spec` is an
   * error, and otherwise leaves the data `spec` computes.
   */
  predicate Applied(r: Outcome, spec: Result<seq<real>>, before: seq<real>, after: seq<real>) {
    && (r.Fail? <==> spec.Err?)
    && (r.Fail? ==> r.error == spec.error && after == before)
    && (r.Pass? ==> after == spec.value)
  }

  /**
   * The one-axis inserter applied to `data` in place: a DomainError before anything is
   * written when both cells lie outside the grid, otherwise the deposits of the plan.
   */
  method Insert1(g: Grid, data: array<real>, point: seq<real>, amount: real) returns (r: Outcome)
    requires g.Valid() && g.NumAxes() == 1 && |point| == 1 && data.Length == CellCount(g.shape)
    modifies data
    ensures Applied(r, Insertion1(g, StencilOf(g, point), old(data[..]), amount), old(data[..]), data[..])
  {
    var s := StencilOf(g, point);
    CellCountOne(g.shape);
    var vols := CompiledVolumes(g);
    r := Deposit1(g.periodic[0], g.shape[0], s, data, vols, amount);
  }

  /**
   * The branches of the one-axis inserter: both cells when the axis is periodic or both are
   * valid, a DomainError when neither is, otherwise the whole amount in the one valid cell.
   */
  method Deposit1(periodic: bool, size: nat, s: Stencil, data: array<real>, vols: seq<real>,
                  amount: real) returns (r: Outcome)
    requires size > 0 && StencilHas(s, 1) && data.Length == size
    requires |vols| == size && PositiveVolumes(vols)
    modifies data
    ensures var plan := Plan1(periodic, size, s);
            && (r.Fail? <==> plan.None?)
            && (r.Fail? ==> r.error == DomainError && data[..] == old(data[..]))
            && (r.Pass? ==> data[..] == Apply(plan.value, |plan.value|, old(data[..]), vols, 1.0, amount))
  {
    ghost var before := data[..];
    ghost var plan := Plan1(periodic, size, s);
    var lo, d := s.c[0], s.d[0];
    var hi := lo + 1;
    if periodic {
      lo := Interpolation.Wrap(lo, size);
      hi := Interpolation.Wrap(hi, size);
      ApplyHit(plan.value, 0, before, vols, 1.0, amount, lo, 1.0 - d);
      data[lo] := data[lo] + Increment(1.0 - d, 1.0, amount, vols[lo]);
      ApplyHit(plan.value, 1, before, vols, 1.0, amount, hi, d);
      data[hi] := data[hi] + Increment(d, 1.0, amount, vols[hi]);
    } else if hi < 0 || lo > size - 1 {
      return Fail(DomainError);
    } else if lo == -1 {
      ApplyHit(plan.value, 0, before, vols, 1.0, amount, hi, 1.0);
      data[hi] := data[hi] + Increment(1.0, 1.0, amount, vols[hi]);
    } else if lo == size - 1 {
      ApplyHit(plan.value, 0, before, vols, 1.0, amount, lo, 1.0);
      data[lo] := data[lo] + Increment(1.0, 1.0, amount, vols[lo]);
    } else {
      ApplyHit(plan.value, 0, before, vols, 1.0, amount, lo, 1.0 - d);
      data[lo] := data[lo] + Increment(1.0 - d, 1.0, amount, vols[lo]);
      ApplyHit(plan.value, 1, before, vols, 1.0, amount, hi, d);
      data[hi] := data[hi] + Increment(d, 1.0, amount, vols[hi]);
    }
    return Pass;
  }

  // ---------------------------------------------------------------------------------------
  // Two axes

  /** The hit of corner `(i, j)` of a two-axis stencil, in the loops' own terms. */
  function HitFor2(shape: seq<nat>, periodic: seq<bool>, s: Stencil, i: int, j: int)
    : Option<Hit>
    requires AxesHave(shape, periodic, 2) && StencilHas(s, 2) && 0 <= i <= 1 && 0 <= j <= 1
  {
    var tx := Wrap(periodic[0], shape[0], s.c[0] + i);
    var ty := Wrap(periodic[1], shape[1], s.c[1] + j);
    if tx.Some? && ty.Some?
    then Some(Hit(Flatten([tx.value, ty.value], shape),
                  Times(Interpolation.Weight(s.d[0], i), Interpolation.Weight(s.d[1], j))))
    else None
  }

  /** Whether `hits` lists the hits of the four corners of a two-axis stencil in loop order. */
  predicate Plan2(shape: seq<nat>, periodic: seq<bool>, s: Stencil, hits: seq<Option<Hit>>)
    requires AxesHave(shape, periodic, 2) && StencilHas(s, 2)
  {
    && |hits| == 4 && HitsFit(hits, CellCount(shape))
    && forall i, j :: 0 <= i <= 1 && 0 <= j <= 1 ==> hits[2 * i + j] == HitFor2(shape, periodic, s, i, j)
  }

  lemma HitAt2(g: Grid, s: Stencil, i: int, j: int)
    requires StencilFits(g, s) && g.NumAxes() == 2 && 0 <= i <= 1 && 0 <= j <= 1
    ensures CornersFit(Corners2, 2)
    ensures Hits(g, s, Corners2)[2 * i + j] == HitFor2(g.shape, g.periodic, s, i, j)
  {
    HitsAt(g, s, Corners2, 2 * i + j);
    CornerIndex2(i, j);
    HitOf2(g, s, i, j);
  }

  lemma CornerIndex2(i: int, j: int)
    requires 0 <= i <= 1 && 0 <= j <= 1
    ensures Corners2[2 * i + j] == [i, j]
  {
    if i == 0 { assert j == 0 || j == 1; } else { assert j == 0 || j == 1; }
  }

  lemma HitOf2(g: Grid, s: Stencil, i: int, j: int)
    requires StencilFits(g, s) && g.NumAxes() == 2 && 0 <= i <= 1 && 0 <= j <= 1
    ensures HitOf(g, s, [i, j]) == HitFor2(g.shape, g.periodic, s, i, j)
  {
    Corner2(g, s, i, j);
  }

  /** The plan of a two-axis stencil lists its corners as the loops visit them. */
  lemma HitsPlan2(g: Grid, s: Stencil)
    requires StencilFits(g, s) && g.NumAxes() == 2
    ensures CornersFit(Corners2, 2) && Plan2(g.shape, g.periodic, s, Hits(g, s, Corners2))
  {
    forall i, j | 0 <= i <= 1 && 0 <= j <= 1
      ensures Hits(g, s, Corners2)[2 * i + j] == HitFor2(g.shape, g.periodic, s, i, j)
    {
      HitAt2(g, s, i, j);
    }
  }

  /** A two-axis corner whose cell is `(cx, cy)`, as the plan lists it. */
  lemma PlanHit2(shape: seq<nat>, periodic: seq<bool>, s: Stencil, hits: seq<Option<Hit>>,
                 i: int, j: int, cx: int, cy: int)
    requires AxesHave(shape, periodic, 2) && StencilHas(s, 2) && Plan2(shape, periodic, s, hits)
    requires 0 <= i <= 1 && 0 <= j <= 1
    requires Wrap(periodic[0], shape[0], s.c[0] + i) == Some(cx)
    requires Wrap(periodic[1], shape[1], s.c[1] + j) == Some(cy)
    ensures InBounds([cx, cy], shape)
    ensures hits[2 * i + j]
            == Some(Hit(Flatten([cx, cy], shape),
                        Times(Interpolation.Weight(s.d[0], i), Interpolation.Weight(s.d[1], j))))
  {
    assert hits[2 * i + j] == HitFor2(shape, periodic, s, i, j);
  }

  /** A two-axis corner that has no target along some axis is not in the plan. */
  lemma PlanMiss2(shape: seq<nat>, periodic: seq<bool>, s: Stencil, hits: seq<Option<Hit>>,
                  i: int, j: int)
    requires AxesHave(shape, periodic, 2) && StencilHas(s, 2) && Plan2(shape, periodic, s, hits)
    requires 0 <= i <= 1 && 0 <= j <= 1
    requires Wrap(periodic[0], shape[0], s.c[0] + i).None?
             || Wrap(periodic[1], shape[1], s.c[1] + j).None?
    ensures hits[2 * i + j].None?
  {
    assert hits[2 * i + j] == HitFor2(shape, periodic, s, i, j);
  }

  /**
   * The weights of the four corners of a two-axis stencil add up to 1, so `total_weight`
   * lies in `[0, 1]`; it is 1 when both axes are periodic.
   */
  lemma PlanWeights2(shape: seq<nat>, periodic: seq<bool>, s: Stencil, hits: seq<Option<Hit>>)
    requires AxesHave(shape, periodic, 2) && StencilHas(s, 2) && Plan2(shape, periodic, s, hits)
    ensures 0.0 <= Weights(hits, 4) <= 1.0
    ensures periodic[0] && periodic[1] ==> Weights(hits, 4) == 1.0
  {
    var a0, a1 := Interpolation.Weight(s.d[0], 0), Interpolation.Weight(s.d[0], 1);
    var b0, b1 := Interpolation.Weight(s.d[1], 0), Interpolation.Weight(s.d[1], 1);
    assert hits[0] == HitFor2(shape, periodic, s, 0, 0) && hits[1] == HitFor2(shape, periodic, s, 0, 1);
    assert hits[2] == HitFor2(shape, periodic, s, 1, 0) && hits[3] == HitFor2(shape, periodic, s, 1, 1);
    UnitProduct(a0, b0);
    UnitProduct(a0, b1);
    UnitProduct(a1, b0);
    UnitProduct(a1, b1);
    WeightsSplit(a0, b0, b1);
    WeightsSplit(a1, b0, b1);
    WeightsPair(hits, 0);
    WeightsPair(hits, 2);
  }

  /** The first pair of nested loops of the two-axis inserter: `total_weight`. */
  method TotalWeight2(shape: seq<nat>, periodic: seq<bool>, s: Stencil,
                      ghost hits: seq<Option<Hit>>) returns (total: real)
    requires AxesHave(shape, periodic, 2) && StencilHas(s, 2) && Plan2(shape, periodic, s, hits)
    ensures total == Weights(hits, 4)
  {
    var sizeX, sizeY := shape[0], shape[1];
    total := 0.0;
    for i := 0 to 2
      invariant total == Weights(hits, 2 * i)
    {
      var tx := Wrap(periodic[0], sizeX, s.c[0] + i);
      if tx.None? {
        PlanMiss2(shape, periodic, s, hits, i, 0);
        PlanMiss2(shape, periodic, s, hits, i, 1);
        WeightsMisses(hits, 2 * i, 2 * i + 2);
        continue;
      }
      var cx := tx.value;
      for j := 0 to 2
        invariant total == Weights(hits, 2 * i + j)
      {
        var ty := Wrap(periodic[1], sizeY, s.c[1] + j);
        if ty.None? {
          PlanMiss2(shape, periodic, s, hits, i, j);
          continue;
        }
        var cy := ty.value;
        PlanHit2(shape, periodic, s, hits, i, j, cx, cy);
        total := total + Times(Interpolation.Weight(s.d[0], i), Interpolation.Weight(s.d[1], j));
      }
    }
  }

  /**
   * The second pair of nested loops of the two-axis inserter: the deposits, in place;
   * `vols` plays the compiled `cell_volume` lookup.
   */
  method Deposit2(shape: seq<nat>, periodic: seq<bool>, s: Stencil, data: array<real>,
                  vols: seq<real>, total: real, amount: real, ghost hits: seq<Option<Hit>>)
    requires AxesHave(shape, periodic, 2) && StencilHas(s, 2) && Plan2(shape, periodic, s, hits)
    requires data.Length == CellCount(shape) && |vols| == data.Length && PositiveVolumes(vols)
    requires total != 0.0
    modifies data
    ensures data[..] == Apply(hits, 4, old(data[..]), vols, total, amount)
  {
    ghost var before := data[..];
    var sizeX, sizeY := shape[0], shape[1];
    for i := 0 to 2
      invariant data[..] == Apply(hits, 2 * i, before, vols, total, amount)
    {
      var tx := Wrap(periodic[0], sizeX, s.c[0] + i);
      if tx.None? {
        PlanMiss2(shape, periodic, s, hits, i, 0);
        PlanMiss2(shape, periodic, s, hits, i, 1);
        ApplyMisses(hits, 2 * i, 2 * i + 2, before, vols, total, amount);
        continue;
      }
      var cx := tx.value;
      for j := 0 to 2
        invariant data[..] == Apply(hits, 2 * i + j, before, vols, total, amount)
      {
        var ty := Wrap(periodic[1], sizeY, s.c[1] + j);
        if ty.None? {
          PlanMiss2(shape, periodic, s, hits, i, j);
          continue;
        }
        var cy := ty.value;
        PlanHit2(shape, periodic, s, hits, i, j, cx, cy);
        var weight := Times(Interpolation.Weight(s.d[0], i), Interpolation.Weight(s.d[1], j));
        var k := Flatten([cx, cy], shape);
        ApplyHit(hits, 2 * i + j, before, vols, total, amount, k, weight);
        data[k] := data[k] + Increment(weight, total, amount, vols[k]);
      }
    }
  }

  /**
   * The two-axis inserter applied to `data` in place: the total weight, a DomainError
   * before anything is written when it is 0, then the deposits.
   */
  method Insert2(g: Grid, data: array<real>, point: seq<real>, amount: real) returns (r: Outcome)
    requires g.Valid() && g.NumAxes() == 2 && |point| == 2 && data.Length == CellCount(g.shape)
    modifies data
    ensures CornersFit(Corners2, 2)
    ensures Applied(r, Insertion(g, StencilOf(g, point), Corners2, old(data[..]), amount), old(data[..]), data[..])
  {
    var s := StencilOf(g, point);
    ghost var hits := Hits(g, s, Corners2);
    HitsPlan2(g, s);
    var total := TotalWeight2(g.shape, g.periodic, s, hits);
    if total == 0.0 {
      return Fail(DomainError);
    }
    var vols := CompiledVolumes(g);
    Deposit2(g.shape, g.periodic, s, data, vols, total, amount, hits);
    return Pass;
  }

  // ---------------------------------------------------------------------------------------
  // Three axes

  /** The hit of corner `(i, j, k)` of a three-axis stencil, in the loops' own terms. */
  function HitFor3(shape: seq<nat>, periodic: seq<bool>, s: Stencil, i: int, j: int, k: int)
    : Option<Hit>
    requires AxesHave(shape, periodic, 3) && StencilHas(s, 3)
    requires 0 <= i <= 1 && 0 <= j <= 1 && 0 <= k <= 1
  {
    var tx := Wrap(periodic[0], shape[0], s.c[0] + i);
    var ty := Wrap(periodic[1], shape[1], s.c[1] + j);
    var tz := Wrap(periodic[2], shape[2], s.c[2] + k);
    if tx.Some? && ty.Some? && tz.Some?
    then Some(Hit(Flatten([tx.value, ty.value, tz.value], shape),
                  Times(Times(Interpolation.Weight(s.d[0], i), Interpolation.Weight(s.d[1], j)),
                        Interpolation.Weight(s.d[2], k))))
    else None
  }

  /** Whether `hits` lists the hits of the eight corners of a three-axis stencil in loop order. */
  predicate Plan3(shape: seq<nat>, periodic: seq<bool>, s: Stencil, hits: seq<Option<Hit>>)
    requires AxesHave(shape, periodic, 3) && StencilHas(s, 3)
  {
    && |hits| == 8 && HitsFit(hits, CellCount(shape))
    && forall i, j, k :: 0 <= i <= 1 && 0 <= j <= 1 && 0 <= k <= 1 ==>
         hits[4 * i + 2 * j + k] == HitFor3(shape, periodic, s, i, j, k)
  }

  lemma CornerIndex3(i: int, j: int, k: int)
    requires 0 <= i <= 1 && 0 <= j <= 1 && 0 <= k <= 1
    ensures Corners3[4 * i + 2 * j + k] == [i, j, k]
  {
    if i == 0 {
      if j == 0 { assert k == 0 || k == 1; } else { assert k == 0 || k == 1; }
    } else {
      if j == 0 { assert k == 0 || k == 1; } else { assert k == 0 || k == 1; }
    }
  }

  lemma HitOf3(g: Grid, s: Stencil, i: int, j: int, k: int)
    requires StencilFits(g, s) && g.NumAxes() == 3
    requires 0 <= i <= 1 && 0 <= j <= 1 && 0 <= k <= 1
    ensures HitOf(g, s, [i, j, k]) == HitFor3(g.shape, g.periodic, s, i, j, k)
  {
    Corner3(g, s, i, j, k);
  }

  lemma HitAt3(g: Grid, s: Stencil, i: int, j: int, k: int)
    requires StencilFits(g, s) && g.NumAxes() == 3
    requires 0 <= i <= 1 && 0 <= j <= 1 && 0 <= k <= 1
    ensures CornersFit(Corners3, 3)
    ensures Hits(g, s, Corners3)[4 * i + 2 * j + k] == HitFor3(g.shape, g.periodic, s, i, j, k)
  {
    HitsAt(g, s, Corners3, 4 * i + 2 * j + k);
    CornerIndex3(i, j, k);
    HitOf3(g, s, i, j, k);
  }

  /** The plan of a three-axis stencil lists its corners as the loops visit them. */
  lemma HitsPlan3(g: Grid, s: Stencil)
    requires StencilFits(g, s) && g.NumAxes() == 3
    ensures CornersFit(Corners3, 3) && Plan3(g.shape, g.periodic, s, Hits(g, s, Corners3))
  {
    forall i, j, k | 0 <= i <= 1 && 0 <= j <= 1 && 0 <= k <= 1
      ensures Hits(g, s, Corners3)[4 * i + 2 * j + k] == HitFor3(g.shape, g.periodic, s, i, j, k)
    {
      HitAt3(g, s, i, j, k);
    }
  }

  /** A three-axis corner whose cell is `(cx, cy, cz)`, as the plan lists it. */
  lemma PlanHit3(shape: seq<nat>, periodic: seq<bool>, s: Stencil, hits: seq<Option<Hit>>,
                 i: int, j: int, k: int, cx: int, cy: int, cz: int)
    requires AxesHave(shape, periodic, 3) && StencilHas(s, 3) && Plan3(shape, periodic, s, hits)
    requires 0 <= i <= 1 && 0 <= j <= 1 && 0 <= k <= 1
    requires Wrap(periodic[0], shape[0], s.c[0] + i) == Some(cx)
    requires Wrap(periodic[1], shape[1], s.c[1] + j) == Some(cy)
    requires Wrap(periodic[2], shape[2], s.c[2] + k) == Some(cz)
    ensures InBounds([cx, cy, cz], shape)
    ensures hits[4 * i + 2 * j + k]
            == Some(Hit(Flatten([cx, cy, cz], shape),
                        Times(Times(Interpolation.Weight(s.d[0], i), Interpolation.Weight(s.d[1], j)),
                              Interpolation.Weight(s.d[2], k))))
  {
    assert hits[4 * i + 2 * j + k] == HitFor3(shape, periodic, s, i, j, k);
  }

  /** A three-axis corner that has no target along some axis is not in the plan. */
  lemma PlanMiss3(shape: seq<nat>, periodic: seq<bool>, s: Stencil, hits: seq<Option<Hit>>,
                  i: int, j: int, k: int)
    requires AxesHave(shape, periodic, 3) && StencilHas(s, 3) && Plan3(shape, periodic, s, hits)
    requires 0 <= i <= 1 && 0 <= j <= 1 && 0 <= k <= 1
    requires Wrap(periodic[0], shape[0], s.c[0] + i).None?
             || Wrap(periodic[1], shape[1], s.c[1] + j).None?
             || Wrap(periodic[2], shape[2], s.c[2] + k).None?
    ensures hits[4 * i + 2 * j + k].None?
  {
    assert hits[4 * i + 2 * j + k] == HitFor3(shape, periodic, s, i, j, k);
  }

  /** The two corners `(i, j, 0)` and `(i, j, 1)` share the weight of `(i, j)` on the first two axes. */
  lemma PairWeights3(shape: seq<nat>, periodic: seq<bool>, s: Stencil, hits: seq<Option<Hit>>,
                     i: int, j: int)
    requires AxesHave(shape, periodic, 3) && StencilHas(s, 3) && Plan3(shape, periodic, s, hits)
    requires 0 <= i <= 1 && 0 <= j <= 1
    ensures var ab := Times(Interpolation.Weight(s.d[0], i), Interpolation.Weight(s.d[1], j));
            var pair := WeightOf(hits[4 * i + 2 * j]) + WeightOf(hits[4 * i + 2 * j + 1]);
            && 0.0 <= pair <= ab
            && (periodic[0] && periodic[1] && periodic[2] ==> pair == ab)
  {
    var ab := Times(Interpolation.Weight(s.d[0], i), Interpolation.Weight(s.d[1], j));
    var c0, c1 := Interpolation.Weight(s.d[2], 0), Interpolation.Weight(s.d[2], 1);
    assert hits[4 * i + 2 * j] == HitFor3(shape, periodic, s, i, j, 0);
    assert hits[4 * i + 2 * j + 1] == HitFor3(shape, periodic, s, i, j, 1);
    UnitProduct(Interpolation.Weight(s.d[0], i), Interpolation.Weight(s.d[1], j));
    UnitProduct(ab, c0);
    UnitProduct(ab, c1);
    WeightsSplit(ab, c0, c1);
  }

  /**
   * The weights of the eight corners of a three-axis stencil add up to 1, so `total_weight`
   * lies in `[0, 1]`; it is 1 when all three axes are periodic.
   */
  lemma PlanWeights3(shape: seq<nat>, periodic: seq<bool>, s: Stencil, hits: seq<Option<Hit>>)
    requires AxesHave(shape, periodic, 3) && StencilHas(s, 3) && Plan3(shape, periodic, s, hits)
    ensures 0.0 <= Weights(hits, 8) <= 1.0
    ensures periodic[0] && periodic[1] && periodic[2] ==> Weights(hits, 8) == 1.0
  {
    var a0, a1 := Interpolation.Weight(s.d[0], 0), Interpolation.Weight(s.d[0], 1);
    var b0, b1 := Interpolation.Weight(s.d[1], 0), Interpolation.Weight(s.d[1], 1);
    PairWeights3(shape, periodic, s, hits, 0, 0);
    PairWeights3(shape, periodic, s, hits, 0, 1);
    PairWeights3(shape, periodic, s, hits, 1, 0);
    PairWeights3(shape, periodic, s, hits, 1, 1);
    WeightsSplit(a0, b0, b1);
    WeightsSplit(a1, b0, b1);
    WeightsPair(hits, 0);
    WeightsPair(hits, 2);
    WeightsPair(hits, 4);
    WeightsPair(hits, 6);
  }

  /** The first three nested loops of the three-axis inserter: `total_weight`. */
  method TotalWeight3(shape: seq<nat>, periodic: seq<bool>, s: Stencil,
                      ghost hits: seq<Option<Hit>>) returns (total: real)
    requires AxesHave(shape, periodic, 3) && StencilHas(s, 3) && Plan3(shape, periodic, s, hits)
    ensures total == Weights(hits, 8)
  {
    var sizeX, sizeY, sizeZ := shape[0], shape[1], shape[2];
    total := 0.0;
    for i := 0 to 2
      invariant total == Weights(hits, 4 * i)
    {
      var tx := Wrap(periodic[0], sizeX, s.c[0] + i);
      if tx.None? {
        PlanMiss3(shape, periodic, s, hits, i, 0, 0);
        PlanMiss3(shape, periodic, s, hits, i, 0, 1);
        PlanMiss3(shape, periodic, s, hits, i, 1, 0);
        PlanMiss3(shape, periodic, s, hits, i, 1, 1);
        WeightsMisses(hits, 4 * i, 4 * i + 4);
        continue;
      }
      var cx := tx.value;
      for j := 0 to 2
        invariant total == Weights(hits, 4 * i + 2 * j)
      {
        var ty := Wrap(periodic[1], sizeY, s.c[1] + j);
        if ty.None? {
          PlanMiss3(shape, periodic, s, hits, i, j, 0);
          PlanMiss3(shape, periodic, s, hits, i, j, 1);
          WeightsMisses(hits, 4 * i + 2 * j, 4 * i + 2 * j + 2);
          continue;
        }
        var cy := ty.value;
        for k := 0 to 2
          invariant total == Weights(hits, 4 * i + 2 * j + k)
        {
          var tz := Wrap(periodic[2], sizeZ, s.c[2] + k);
          if tz.None? {
            PlanMiss3(shape, periodic, s, hits, i, j, k);
            continue;
          }
          var cz := tz.value;
          PlanHit3(shape, periodic, s, hits, i, j, k, cx, cy, cz);
          total := total + Times(Times(Interpolation.Weight(s.d[0], i),
                                       Interpolation.Weight(s.d[1], j)),
                                 Interpolation.Weight(s.d[2], k));
        }
      }
    }
  }

  /**
   * The second three nested loops of the three-axis inserter: the deposits, in place;
   * `vols` plays the compiled `cell_volume` lookup.
   */
  method Deposit3(shape: seq<nat>, periodic: seq<bool>, s: Stencil, data: array<real>,
                  vols: seq<real>, total: real, amount: real, ghost hits: seq<Option<Hit>>)
    requires AxesHave(shape, periodic, 3) && StencilHas(s, 3) && Plan3(shape, periodic, s, hits)
    requires data.Length == CellCount(shape) && |vols| == data.Length && PositiveVolumes(vols)
    requires total != 0.0
    modifies data
    ensures data[..] == Apply(hits, 8, old(data[..]), vols, total, amount)
  {
    ghost var before := data[..];
    var sizeX := shape[0];
    for i := 0 to 2
      invariant data[..] == Apply(hits, 4 * i, before, vols, total, amount)
    {
      var tx := Wrap(periodic[0], sizeX, s.c[0] + i);
      if tx.None? {
        PlanMiss3(shape, periodic, s, hits, i, 0, 0);
        PlanMiss3(shape, periodic, s, hits, i, 0, 1);
        PlanMiss3(shape, periodic, s, hits, i, 1, 0);
        PlanMiss3(shape, periodic, s, hits, i, 1, 1);
        ApplyMisses(hits, 4 * i, 4 * i + 4, before, vols, total, amount);
        continue;
      }
      var cx := tx.value;
      DepositAlongY(shape, periodic, s, data, vols, total, amount, hits, before, i, cx);
    }
  }

  /** The middle loop of the three-axis deposits, over the corners `(i, j, k)` of one `i`. */
  method DepositAlongY(shape: seq<nat>, periodic: seq<bool>, s: Stencil, data: array<real>,
                       vols: seq<real>, total: real, amount: real, ghost hits: seq<Option<Hit>>,
                       ghost before: seq<real>, i: int, cx: int)
    requires AxesHave(shape, periodic, 3) && StencilHas(s, 3) && Plan3(shape, periodic, s, hits)
    requires data.Length == CellCount(shape) && |vols| == data.Length && PositiveVolumes(vols)
    requires total != 0.0 && |before| == data.Length && 0 <= i <= 1
    requires Wrap(periodic[0], shape[0], s.c[0] + i) == Some(cx)
    requires data[..] == Apply(hits, 4 * i, before, vols, total, amount)
    modifies data
    ensures data[..] == Apply(hits, 4 * i + 4, before, vols, total, amount)
  {
    var sizeY := shape[1];
    for j := 0 to 2
      invariant data[..] == Apply(hits, 4 * i + 2 * j, before, vols, total, amount)
    {
      var ty := Wrap(periodic[1], sizeY, s.c[1] + j);
      if ty.None? {
        PlanMiss3(shape, periodic, s, hits, i, j, 0);
        PlanMiss3(shape, periodic, s, hits, i, j, 1);
        ApplyMisses(hits, 4 * i + 2 * j, 4 * i + 2 * j + 2, before, vols, total, amount);
        continue;
      }
      var cy := ty.value;
      DepositAlongZ(shape, periodic, s, data, vols, total, amount, hits, before, i, j, cx, cy);
    }
  }

  /** The innermost loop of the three-axis deposits, over the corners `(i, j, 0)` and `(i, j, 1)`. */
  method DepositAlongZ(shape: seq<nat>, periodic: seq<bool>, s: Stencil, data: array<real>,
                       vols: seq<real>, total: real, amount: real, ghost hits: seq<Option<Hit>>,
                       ghost before: seq<real>, i: int, j: int, cx: int, cy: int)
    requires AxesHave(shape, periodic, 3) && StencilHas(s, 3) && Plan3(shape, periodic, s, hits)
    requires data.Length == CellCount(shape) && |vols| == data.Length && PositiveVolumes(vols)
    requires total != 0.0 && |before| == data.Length && 0 <= i <= 1 && 0 <= j <= 1
    requires Wrap(periodic[0], shape[0], s.c[0] + i) == Some(cx)
    requires Wrap(periodic[1], shape[1], s.c[1] + j) == Some(cy)
    requires data[..] == Apply(hits, 4 * i + 2 * j, before, vols, total, amount)
    modifies data
    ensures data[..] == Apply(hits, 4 * i + 2 * j + 2, before, vols, total, amount)
  {
    var sizeZ := shape[2];
    for k := 0 to 2
      invariant data[..] == Apply(hits, 4 * i + 2 * j + k, before, vols, total, amount)
    {
      var tz := Wrap(periodic[2], sizeZ, s.c[2] + k);
      if tz.None? {
        PlanMiss3(shape, periodic, s, hits, i, j, k);
        continue;
      }
      var cz := tz.value;
      PlanHit3(shape, periodic, s, hits, i, j, k, cx, cy, cz);
      var weight := Times(Times(Interpolation.Weight(s.d[0], i), Interpolation.Weight(s.d[1], j)),
                          Interpolation.Weight(s.d[2], k));
      var f := Flatten([cx, cy, cz], shape);
      ApplyHit(hits, 4 * i + 2 * j + k, before, vols, total, amount, f, weight);
      data[f] := data[f] + Increment(weight, total, amount, vols[f]);
    }
  }

  /**
   * The three-axis inserter applied to `data` in place: the total weight, a DomainError
   * before anything is written when it is 0, then the deposits.
   */
  method Insert3(g: Grid, data: array<real>, point: seq<real>, amount: real) returns (r: Outcome)
    requires g.Valid() && g.NumAxes() == 3 && |point| == 3 && data.Length == CellCount(g.shape)
    modifies data
    ensures CornersFit(Corners3, 3)
    ensures Applied(r, Insertion(g, StencilOf(g, point), Corners3, old(data[..]), amount), old(data[..]), data[..])
  {
    var s := StencilOf(g, point);
    ghost var hits := Hits(g, s, Corners3);
    HitsPlan3(g, s);
    var total := TotalWeight3(g.shape, g.periodic, s, hits);
    if total == 0.0 {
      return Fail(DomainError);
    }
    var vols := CompiledVolumes(g);
    Deposit3(g.shape, g.periodic, s, data, vols, total, amount, hits);
    return Pass;
  }

  // ---------------------------------------------------------------------------------------
  // The dispatch on the number of axes

  /**
   * `make_inserter_compiled` followed by a call of the function it returns: specialised for
   * one, two and three axes; for more axes a NotImplementedError before anything is written.
   */
  method Insert(g: Grid, data: array<real>, point: seq<real>, amount: real) returns (r: Outcome)
    requires g.Valid() && |point| == g.NumAxes() && data.Length == CellCount(g.shape)
    modifies data
    ensures g.NumAxes() > 3 ==> r == Fail(NotImplementedError) && data[..] == old(data[..])
    ensures g.NumAxes() == 1 ==>
              Applied(r, Insertion1(g, StencilOf(g, point), old(data[..]), amount), old(data[..]),
                      data[..])
    ensures g.NumAxes() == 2 ==>
              CornersFit(Corners2, 2)
              && Applied(r, Insertion(g, StencilOf(g, point), Corners2, old(data[..]), amount),
                         old(data[..]), data[..])
    ensures g.NumAxes() == 3 ==>
              CornersFit(Corners3, 3)
              && Applied(r, Insertion(g, StencilOf(g, point), Corners3, old(data[..]), amount),
                         old(data[..]), data[..])
  {
    if g.NumAxes() == 1 {
      r := Insert1(g, data, point, amount);
    } else if g.NumAxes() == 2 {
      r := Insert2(g, data, point, amount);
    } else if g.NumAxes() == 3 {
      r := Insert3(g, data, point, amount);
    } else {
      r := Fail(NotImplementedError);
    }
  }

  // ---------------------------------------------------------------------------------------
  // The total weight

  /**
   * The total weight never exceeds 1 on two or three axes, and on a grid periodic along
   * every axis it is exactly 1, so the inserter never raises there.
   */
  lemma TotalWeightAtMostOne(g: Grid, s: Stencil, cs: seq<seq<int>>)
    requires StencilFits(g, s)
    requires (g.NumAxes() == 2 && cs == Corners2) || (g.NumAxes() == 3 && cs == Corners3)
    ensures CornersFit(cs, g.NumAxes())
    ensures 0.0 <= TotalWeight(g, s, cs) <= 1.0
    ensures (forall a :: 0 <= a < g.NumAxes() ==> g.periodic[a]) ==>
              TotalWeight(g, s, cs) == 1.0
  {
    if g.NumAxes() == 2 {
      HitsPlan2(g, s);
      PlanWeights2(g.shape, g.periodic, s, Hits(g, s, cs));
    } else {
      HitsPlan3(g, s);
      PlanWeights3(g.shape, g.periodic, s, Hits(g, s, cs));
    }
  }
}

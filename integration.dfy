/**
 * Cell volumes and integration over the grid: `cell_volumes`, `uniform_cell_volumes`,
 * `make_cell_volume_compiled`, `integrate` and `make_integrator`. Data and volumes are flat
 * row-major sequences over the grid's shape.
 */
module Integration {
  import opened Wrappers
  import opened RowMajor
  import opened Grids

  /** Whether `vd` supplies positive volume data for every axis of `shape`. */
  predicate VolumesFit(vd: seq<AxisVolume>, shape: seq<nat>) {
    |vd| == |shape| && forall a :: 0 <= a < |shape| ==> AxisVolumeFits(vd[a], shape[a])
  }

  /** The product of `xs`, multiplied from the first factor to the last. */
  function Product(xs: seq<real>): real {
    if |xs| == 0 then 1.0 else Product(xs[..|xs| - 1]) * xs[|xs| - 1]
  }

  lemma {:induction false} ProductPositive(xs: seq<real>)
    requires forall k :: 0 <= k < |xs| ==> xs[k] > 0.0
    ensures Product(xs) > 0.0
  {
    if |xs| > 0 {
      var head := xs[..|xs| - 1];
      ProductPositive(head);
      assert Product(head) * xs[|xs| - 1] > 0.0;
    }
  }

  /** The volume factors of the cell with multi-index `idx`, one per axis. */
  function Factors(vd: seq<AxisVolume>, shape: seq<nat>, idx: seq<int>): (r: seq<real>)
    requires VolumesFit(vd, shape) && InBounds(idx, shape)
    ensures |r| == |vd| && forall a :: 0 <= a < |vd| ==> r[a] > 0.0
  {
    seq(|vd|, a requires 0 <= a < |vd| => AxisVol(vd[a], idx[a]))
  }

  /**
   * The cell volumes `cell_volumes` is meant to give, as a flat row-major sequence: the entry
   * of a cell is the product of its per-axis factors. On one or two axes this is what the
   * source computes; on more axes the reduction as written is `OuterCellVolumes` below.
   */
  function CellVolumes(vd: seq<AxisVolume>, shape: seq<nat>): (r: seq<real>)
    requires VolumesFit(vd, shape) && Positive(shape)
    ensures |r| == CellCount(shape)
  {
    seq(CellCount(shape), i requires 0 <= i < CellCount(shape) =>
      Product(Factors(vd, shape, Unflatten(i, shape))))
  }

  /** The cell with multi-index `idx` has the product of its per-axis factors as volume. */
  lemma CellVolumesAt(vd: seq<AxisVolume>, shape: seq<nat>, idx: seq<int>)
    requires VolumesFit(vd, shape) && Positive(shape) && InBounds(idx, shape)
    ensures Flatten(idx, shape) < CellCount(shape)
    ensures CellVolumes(vd, shape)[Flatten(idx, shape)] == Product(Factors(vd, shape, idx))
  {
    UnflattenFlatten(idx, shape);
  }

  /** Every cell has a positive volume. */
  lemma CellVolumesPositive(vd: seq<AxisVolume>, shape: seq<nat>)
    requires VolumesFit(vd, shape) && Positive(shape)
    ensures forall i :: 0 <= i < CellCount(shape) ==> CellVolumes(vd, shape)[i] > 0.0
  {
    forall i | 0 <= i < CellCount(shape) ensures CellVolumes(vd, shape)[i] > 0.0 {
      ProductPositive(Factors(vd, shape, Unflatten(i, shape)));
    }
  }

  // ---------------------------------------------------------------------------------------
  // The reduction of `cell_volumes` as written

  /** An entry of `cell_volume_data` as `numpy.outer` reads it: flattened to one axis. */
  function Ravel(av: AxisVolume): seq<real> {
    match av
    case Uniform(v) => [v]
    case PerCell(vs) => vs
  }

  /** `numpy.outer(a, b).ravel()`: row `p` of the product is `a[p]` times `b`. */
  function OuterRavel(a: seq<real>, b: seq<real>): seq<real>
    decreases |a|
  {
    if |a| == 0 then []
    else OuterRavel(a[..|a| - 1], b) + seq(|b|, q requires 0 <= q < |b| => a[|a| - 1] * b[q])
  }

  /**
   * The flattened reduction `functools.reduce(numpy.outer, vd)`: every step flattens the
   * product so far before multiplying it by the next entry.
   */
  function OuterFlat(vd: seq<AxisVolume>): seq<real>
    requires |vd| >= 1
    decreases |vd|
  {
    if |vd| == 1 then Ravel(vd[0])
    else OuterRavel(OuterFlat(vd[..|vd| - 1]), Ravel(vd[|vd| - 1]))
  }

  /**
   * Whether `numpy.broadcast_to` accepts the reduction for `shape`. On two or more axes the
   * reduction has the two dimensions `(|OuterFlat(vd[..n - 1])|, |Ravel(vd[n - 1])|)`, which
   * line up with the last two axes of the grid; the last one always fits.
   */
  predicate Broadcastable(vd: seq<AxisVolume>, shape: seq<nat>)
    requires |vd| == |shape| >= 1
  {
    var n := |shape|;
    n == 1 || |OuterFlat(vd[..n - 1])| == 1 || |OuterFlat(vd[..n - 1])| == shape[n - 2]
  }

  /** The entry the broadcast reduction gives the cell with multi-index `idx`. */
  function OuterEntry(vd: seq<AxisVolume>, shape: seq<nat>, idx: seq<int>): real
    requires VolumesFit(vd, shape) && |shape| >= 1 && InBounds(idx, shape)
    requires Broadcastable(vd, shape)
  {
    var n := |shape|;
    if n == 1 then AxisVol(vd[0], idx[0])
    else
      var rows := OuterFlat(vd[..n - 1]);
      rows[if |rows| == 1 then 0 else idx[n - 2]] * AxisVol(vd[n - 1], idx[n - 1])
  }

  /**
   * `cell_volumes` as written: `functools.reduce(numpy.outer, cell_volume_data)` broadcast to
   * the grid's shape, or the ValueError of `numpy.broadcast_to` when the reduction does not
   * line up with the grid's last two axes.
   */
  function OuterCellVolumes(vd: seq<AxisVolume>, shape: seq<nat>): (r: Result<seq<real>>)
    requires VolumesFit(vd, shape) && Positive(shape) && |shape| >= 1
    ensures r.Err? <==> !Broadcastable(vd, shape)
    ensures r.Ok? ==> |r.value| == CellCount(shape)
  {
    if !Broadcastable(vd, shape) then Err(ValueError)
    else Ok(seq(CellCount(shape), i requires 0 <= i < CellCount(shape) =>
              OuterEntry(vd, shape, Unflatten(i, shape))))
  }

  /** The cell with multi-index `idx` receives the broadcast entry of the reduction. */
  lemma OuterCellVolumesAt(vd: seq<AxisVolume>, shape: seq<nat>, idx: seq<int>)
    requires VolumesFit(vd, shape) && Positive(shape) && |shape| >= 1 && InBounds(idx, shape)
    requires Broadcastable(vd, shape)
    ensures Flatten(idx, shape) < CellCount(shape)
    ensures OuterCellVolumes(vd, shape).Ok?
    ensures OuterCellVolumes(vd, shape).value[Flatten(idx, shape)] == OuterEntry(vd, shape, idx)
  {
    UnflattenFlatten(idx, shape);
  }

  /**
   * When only the last entry may be per-cell, the reduction is the product of the leading
   * (uniform) factors times the last entry.
   */
  lemma {:induction false} OuterFlatUniformPrefix(vd: seq<AxisVolume>)
    requires |vd| >= 1 && forall a :: 0 <= a < |vd| - 1 ==> vd[a].Uniform?
    ensures var last := Ravel(vd[|vd| - 1]);
            OuterFlat(vd)
            == seq(|last|, q requires 0 <= q < |last| => UniformVolume(vd[..|vd| - 1]) * last[q])
  {
    var n := |vd|;
    var last := Ravel(vd[n - 1]);
    var pre := vd[..n - 1];
    if n == 1 {
      assert pre == [];
      assert UniformVolume(pre) == 1.0;
    } else {
      OuterFlatUniformPrefix(pre);
      assert pre[..n - 2] == vd[..n - 2];
      var v := vd[n - 2].v;
      assert Ravel(pre[n - 2]) == [v];
      var vs := seq(n - 1, a requires 0 <= a < n - 1 => pre[a].v);
      assert vs[..n - 2] == seq(n - 2, a requires 0 <= a < n - 2 => pre[..n - 2][a].v);
      assert UniformVolume(pre) == UniformVolume(pre[..n - 2]) * v;
      assert OuterFlat(pre)
             == seq(1, q requires 0 <= q < 1 => UniformVolume(pre[..n - 2]) * [v][q]);
      assert |OuterFlat(pre)| == 1 && OuterFlat(pre)[0] == UniformVolume(pre);
      assert OuterFlat(pre) == [UniformVolume(pre)];
      assert OuterRavel([UniformVolume(pre)], last)
             == seq(|last|, q requires 0 <= q < |last| => UniformVolume(pre) * last[q])
      by {
        assert [UniformVolume(pre)][..0] == [];
      }
    }
  }

  /** A ravelled entry, read where the broadcast reads it, is the axis factor of the cell. */
  lemma RavelPick(av: AxisVolume, n: nat, k: nat)
    requires AxisVolumeFits(av, n) && k < n
    requires |Ravel(av)| == 1 || |Ravel(av)| == n
    ensures (if |Ravel(av)| == 1 then 0 else k) < |Ravel(av)|
    ensures Ravel(av)[if |Ravel(av)| == 1 then 0 else k] == AxisVol(av, k)
  {
  }

  /** The leading factors of a cell, all from uniform entries, multiply to their product. */
  lemma UniformFactors(vd: seq<AxisVolume>, shape: seq<nat>, idx: seq<int>, m: nat)
    requires VolumesFit(vd, shape) && InBounds(idx, shape) && m <= |vd|
    requires forall a :: 0 <= a < m ==> vd[a].Uniform?
    ensures Product(Factors(vd, shape, idx)[..m]) == UniformVolume(vd[..m])
  {
    assert Factors(vd, shape, idx)[..m] == seq(m, a requires 0 <= a < m => vd[..m][a].v);
  }

  /** The rows of the reduction when only its last two entries may be per-cell. */
  lemma UniformRows(vd: seq<AxisVolume>, n: nat, k: nat)
    requires n >= 2 && |vd| == n && forall a :: 0 <= a < n - 2 ==> vd[a].Uniform?
    requires k < |Ravel(vd[n - 2])|
    ensures |OuterFlat(vd[..n - 1])| == |Ravel(vd[n - 2])|
    ensures OuterFlat(vd[..n - 1])[k] == UniformVolume(vd[..n - 2]) * Ravel(vd[n - 2])[k]
  {
    var pre := vd[..n - 1];
    OuterFlatUniformPrefix(pre);
    assert pre[..n - 2] == vd[..n - 2];
  }

  /**
   * With per-cell data confined to the last two axes, the broadcast entry of a cell is the
   * product of its factors.
   */
  lemma OuterEntryIsProduct(vd: seq<AxisVolume>, shape: seq<nat>, idx: seq<int>)
    requires VolumesFit(vd, shape) && |shape| >= 1 && InBounds(idx, shape)
    requires forall a :: 0 <= a < |shape| - 2 ==> vd[a].Uniform?
    ensures Broadcastable(vd, shape)
    ensures OuterEntry(vd, shape, idx) == Product(Factors(vd, shape, idx))
  {
    var n := |shape|;
    var f := Factors(vd, shape, idx);
    if n == 1 {
      assert f[..0] == [];
    } else {
      UniformRow(vd, shape, idx);
      EntryFromRow(vd, shape, idx);
    }
  }

  /** The row of the reduction that cell `idx` reads holds the product of its leading factors. */
  lemma UniformRow(vd: seq<AxisVolume>, shape: seq<nat>, idx: seq<int>)
    requires VolumesFit(vd, shape) && |shape| >= 2 && InBounds(idx, shape)
    requires forall a :: 0 <= a < |shape| - 2 ==> vd[a].Uniform?
    ensures Broadcastable(vd, shape)
    ensures var n := |shape|;
            var rows := OuterFlat(vd[..n - 1]);
            rows[if |rows| == 1 then 0 else idx[n - 2]]
            == Product(Factors(vd, shape, idx)[..n - 1])
  {
    var n := |shape|;
    var f := Factors(vd, shape, idx);
    RavelPick(vd[n - 2], shape[n - 2], idx[n - 2]);
    var r := Ravel(vd[n - 2]);
    var k := if |r| == 1 then 0 else idx[n - 2];
    UniformFactors(vd, shape, idx, n - 2);
    assert r[k] == f[n - 2];
    RowProduct(vd, n, k, f);
    var rows := OuterFlat(vd[..n - 1]);
    assert (if |rows| == 1 then 0 else idx[n - 2]) == k;
  }

  /** Row `k` of the reduction over uniform leading axes is the product of the factors `f` when
      `f` starts with their volumes and then the picked entry of the next axis. */
  lemma RowProduct(vd: seq<AxisVolume>, n: nat, k: nat, f: seq<real>)
    requires n >= 2 && |vd| == n && |f| >= n - 1 && forall a :: 0 <= a < n - 2 ==> vd[a].Uniform?
    requires k < |Ravel(vd[n - 2])|
    requires UniformVolume(vd[..n - 2]) == Product(f[..n - 2])
    requires Ravel(vd[n - 2])[k] == f[n - 2]
    ensures |OuterFlat(vd[..n - 1])| == |Ravel(vd[n - 2])|
    ensures OuterFlat(vd[..n - 1])[k] == Product(f[..n - 1])
  {
    UniformRows(vd, n, k);
    ProductPrefixStep(f, n - 1);
  }

  /** One more factor multiplies the product of a prefix. */
  lemma ProductPrefixStep(f: seq<real>, m: nat)
    requires 1 <= m <= |f|
    ensures Product(f[..m]) == Product(f[..m - 1]) * f[m - 1]
  {
    assert f[..m][..m - 1] == f[..m - 1];
  }

  /** A cell whose row holds its leading factors' product gets the product of all of them. */
  lemma EntryFromRow(vd: seq<AxisVolume>, shape: seq<nat>, idx: seq<int>)
    requires VolumesFit(vd, shape) && |shape| >= 2 && InBounds(idx, shape)
    requires Broadcastable(vd, shape)
    requires var n := |shape|;
             var rows := OuterFlat(vd[..n - 1]);
             rows[if |rows| == 1 then 0 else idx[n - 2]]
             == Product(Factors(vd, shape, idx)[..n - 1])
    ensures OuterEntry(vd, shape, idx) == Product(Factors(vd, shape, idx))
  {
  }

  /**
   * The reduction as written agrees with the intended volumes whenever per-cell data appears
   * only on the last two axes, which covers every grid of one or two axes.
   */
  lemma OuterCellVolumesAgree(vd: seq<AxisVolume>, shape: seq<nat>)
    requires VolumesFit(vd, shape) && Positive(shape) && |shape| >= 1
    requires forall a :: 0 <= a < |shape| - 2 ==> vd[a].Uniform?
    ensures OuterCellVolumes(vd, shape) == Ok(CellVolumes(vd, shape))
  {
    CellCountPositive(shape);
    OuterEntryIsProduct(vd, shape, Unflatten(0, shape));
    forall i | 0 <= i < CellCount(shape)
      ensures OuterCellVolumes(vd, shape).value[i] == CellVolumes(vd, shape)[i]
    {
      OuterEntryIsProduct(vd, shape, Unflatten(i, shape));
    }
    assert OuterCellVolumes(vd, shape).value == CellVolumes(vd, shape);
  }

  /** Volume data with per-cell values on the first of three axes. */
  function FirstAxisData(): seq<AxisVolume> {
    [PerCell([1.0, 2.0]), Uniform(1.0), Uniform(1.0)]
  }

  /** The reduction of `FirstAxisData` keeps the two values of axis 0 as its rows. */
  lemma FirstAxisRows()
    ensures OuterFlat(FirstAxisData()[..2]) == [1.0, 2.0]
  {
    var pre := FirstAxisData()[..2];
    assert pre == [PerCell([1.0, 2.0]), Uniform(1.0)];
    assert pre[..1] == [PerCell([1.0, 2.0])];
    assert OuterFlat(pre[..1]) == [1.0, 2.0];
    assert OuterFlat(pre) == OuterRavel([1.0, 2.0], [1.0]);
    OuterRavelOfOnes();
  }

  lemma OuterRavelOfOnes()
    ensures OuterRavel([1.0, 2.0], [1.0]) == [1.0, 2.0]
  {
    var a := [1.0, 2.0];
    assert a[..1] == [1.0] && a[..1][..0] == [];
    assert OuterRavel([], [1.0]) == [];
    assert OuterRavel(a[..1], [1.0]) == [] + [1.0 * 1.0];
    assert OuterRavel(a, [1.0]) == OuterRavel(a[..1], [1.0]) + [2.0 * 1.0];
  }

  /**
   * On three axes with per-cell data on the first, the reduction as written reads the data
   * of axis 0 along axis 1: on a 2x2x3 grid cell (0, 1, 0) gets volume 2 instead of 1.
   */
  lemma OuterCellVolumesMixesAxes()
    ensures var shape: seq<nat> := [2, 2, 3];
            var idx := [0, 1, 0];
            && VolumesFit(FirstAxisData(), shape) && Positive(shape) && InBounds(idx, shape)
            && Flatten(idx, shape) < CellCount(shape)
            && OuterCellVolumes(FirstAxisData(), shape).Ok?
            && OuterCellVolumes(FirstAxisData(), shape).value[Flatten(idx, shape)] == 2.0
            && CellVolumes(FirstAxisData(), shape)[Flatten(idx, shape)] == 1.0
  {
    var vd := FirstAxisData();
    var shape: seq<nat> := [2, 2, 3];
    var idx := [0, 1, 0];
    FirstAxisEntry();
    OuterCellVolumesAt(vd, shape, idx);
    CellVolumesAt(vd, shape, idx);
    FirstAxisProduct();
  }

  lemma FirstAxisEntry()
    ensures VolumesFit(FirstAxisData(), [2, 2, 3]) && InBounds([0, 1, 0], [2, 2, 3])
    ensures Broadcastable(FirstAxisData(), [2, 2, 3])
    ensures OuterEntry(FirstAxisData(), [2, 2, 3], [0, 1, 0]) == 2.0
  {
    FirstAxisRows();
  }

  lemma FirstAxisProduct()
    ensures VolumesFit(FirstAxisData(), [2, 2, 3]) && InBounds([0, 1, 0], [2, 2, 3])
    ensures Product(Factors(FirstAxisData(), [2, 2, 3], [0, 1, 0])) == 1.0
  {
    var f := Factors(FirstAxisData(), [2, 2, 3], [0, 1, 0]);
    assert f == [1.0, 1.0, 1.0];
    assert Product(f[..1]) == 1.0 by { assert f[..1][..0] == []; }
    assert Product(f[..2]) == 1.0 by { assert f[..2][..1] == f[..1]; }
  }

  /** On a 2x3x4 grid the same data does not line up with axis 1 and `broadcast_to` raises. */
  lemma OuterCellVolumesRefuses()
    ensures VolumesFit(FirstAxisData(), [2, 3, 4]) && Positive([2, 3, 4])
    ensures OuterCellVolumes(FirstAxisData(), [2, 3, 4]) == Err(ValueError)
  {
    FirstAxisRows();
  }

  // ---------------------------------------------------------------------------------------
  // Uniform volumes and the compiled cell-volume lookup

  /** `uniform_cell_volumes`: every entry of `cell_volume_data` is a single number. */
  predicate UniformCellVolumes(vd: seq<AxisVolume>) {
    forall a :: 0 <= a < |vd| ==> vd[a].Uniform?
  }

  /** `numpy.product(cell_volume_data)` for uniform data. */
  function UniformVolume(vd: seq<AxisVolume>): real
    requires UniformCellVolumes(vd)
  {
    Product(seq(|vd|, a requires 0 <= a < |vd| => vd[a].v))
  }

  /** On a uniform grid every cell has the volume `numpy.product(cell_volume_data)`. */
  lemma UniformCellVolumesConstant(vd: seq<AxisVolume>, shape: seq<nat>)
    requires VolumesFit(vd, shape) && Positive(shape) && UniformCellVolumes(vd)
    ensures forall i :: 0 <= i < CellCount(shape) ==> CellVolumes(vd, shape)[i] == UniformVolume(vd)
  {
    forall i | 0 <= i < CellCount(shape) ensures CellVolumes(vd, shape)[i] == UniformVolume(vd) {
      assert Factors(vd, shape, Unflatten(i, shape)) == seq(|vd|, a requires 0 <= a < |vd| => vd[a].v);
    }
  }

  /**
   * `make_cell_volume_compiled(flat_index=True)`: the product of the data when every axis is
   * uniform, otherwise `cell_volumes.flat[i]`.
   */
  function CellVolumeCompiled(vd: seq<AxisVolume>, shape: seq<nat>, i: nat): (r: real)
    requires VolumesFit(vd, shape) && Positive(shape) && i < CellCount(shape)
    ensures r > 0.0
  {
    if UniformCellVolumes(vd) then
      ProductPositive(seq(|vd|, a requires 0 <= a < |vd| => vd[a].v));
      UniformVolume(vd)
    else
      CellVolumesPositive(vd, shape);
      CellVolumes(vd, shape)[i]
  }

  /** Both branches of the compiled lookup return the volume of cell `i`. */
  lemma CellVolumeCompiledIsCellVolume(vd: seq<AxisVolume>, shape: seq<nat>, i: nat)
    requires VolumesFit(vd, shape) && Positive(shape) && i < CellCount(shape)
    ensures CellVolumeCompiled(vd, shape, i) == CellVolumes(vd, shape)[i]
  {
    if UniformCellVolumes(vd) {
      UniformCellVolumesConstant(vd, shape);
    }
  }

  // ---------------------------------------------------------------------------------------
  // integrate and make_integrator

  /** `arr.sum()`. */
  function Sum(xs: seq<real>): real {
    if |xs| == 0 then 0.0 else Sum(xs[..|xs| - 1]) + xs[|xs| - 1]
  }

  /** `(data * cell_volumes).sum()`, accumulated from the first cell to the last. */
  function WeightedSum(xs: seq<real>, ws: seq<real>): real
    requires |xs| == |ws|
  {
    if |xs| == 0 then 0.0
    else WeightedSum(xs[..|xs| - 1], ws[..|ws| - 1]) + ws[|ws| - 1] * xs[|xs| - 1]
  }

  /** With one volume `c` for every cell, the weighted sum is `c` times the plain sum. */
  lemma {:induction false} WeightedSumUniform(xs: seq<real>, ws: seq<real>, c: real)
    requires |xs| == |ws| && forall i :: 0 <= i < |ws| ==> ws[i] == c
    ensures WeightedSum(xs, ws) == c * Sum(xs)
  {
    if |xs| > 0 {
      WeightedSumUniform(xs[..|xs| - 1], ws[..|ws| - 1], c);
    }
  }

  /** The integrand passed to `integrate`: one number for the whole grid, or one per cell. */
  datatype Integrand = Constant(c: real) | Field(values: seq<real>)

  /** The integrand as one value per cell (`numpy.broadcast_to(data, shape)`). */
  function Broadcast(data: Integrand, shape: seq<nat>): (r: seq<real>)
    requires data.Field? ==> |data.values| == CellCount(shape)
    ensures |r| == CellCount(shape)
  {
    match data
    case Constant(c) => seq(CellCount(shape), _ => c)
    case Field(values) => values
  }

  /** Whether the listed axes, read with numpy's negative indexing, cover every axis. */
  predicate CoversAllAxes(axes: seq<int>, n: nat) {
    forall a :: 0 <= a < n ==> a in axes || a - n in axes
  }

  /** Whether numpy accepts `axes` in `sum(axis=axes)`: in range and without repetition. */
  predicate AxesAccepted(axes: seq<int>, n: nat) {
    && (forall k :: 0 <= k < |axes| ==> -(n as int) <= axes[k] < n)
    && (forall k1, k2 :: 0 <= k1 < k2 < |axes| ==> NormalAxis(axes[k1], n) != NormalAxis(axes[k2], n))
  }

  /** The axis a possibly negative axis number denotes. */
  function NormalAxis(x: int, n: nat): int {
    if x < 0 then x + n else x
  }

  /**
   * The volume list of `integrate` as written: axis `a` keeps its data when the number `a`
   * itself is listed, so an axis listed by its negative number gets the factor 1.
   */
  function VolumeList(vd: seq<AxisVolume>, axes: seq<int>): (r: seq<AxisVolume>)
    ensures |r| == |vd|
    ensures forall a :: 0 <= a < |vd| ==> r[a] == vd[a] || r[a] == Uniform(1.0)
  {
    seq(|vd|, a requires 0 <= a < |vd| => if a in axes then vd[a] else Uniform(1.0))
  }

  /** The volume list with negative axis numbers read as numpy reads them. */
  function VolumeListNormalized(vd: seq<AxisVolume>, axes: seq<int>): (r: seq<AxisVolume>)
    ensures |r| == |vd|
  {
    seq(|vd|, a requires 0 <= a < |vd| =>
      if a in axes || a - |vd| in axes then vd[a] else Uniform(1.0))
  }

  lemma VolumeListFits(vd: seq<AxisVolume>, shape: seq<nat>, axes: seq<int>)
    requires VolumesFit(vd, shape)
    ensures VolumesFit(VolumeList(vd, axes), shape)
    ensures VolumesFit(VolumeListNormalized(vd, axes), shape)
  {
  }

  /**
   * `integrate(data, axes)` as written, over the whole grid, with `axes` either omitted or
   * naming every axis (an integer is a one-element list).
   */
  function Integrate(g: Grid, data: Integrand, axes: Option<seq<int>>): (r: Result<real>)
    requires g.Valid()
    requires data.Field? ==> |data.values| == CellCount(g.shape)
    requires axes.Some? ==> CoversAllAxes(axes.value, g.NumAxes())
    ensures r.Err? <==> axes.Some? && !AxesAccepted(axes.value, g.NumAxes())
  {
    var values := Broadcast(data, g.shape);
    match axes
    case None => Ok(WeightedSum(values, CellVolumes(g.cellVolumeData, g.shape)))
    case Some(list) =>
      if !AxesAccepted(list, g.NumAxes()) then Err(ValueError)
      else
        VolumeListFits(g.cellVolumeData, g.shape, list);
        Ok(WeightedSum(values, CellVolumes(VolumeList(g.cellVolumeData, list), g.shape)))
  }

  /** `integrate` with the volume list built from the axes numpy actually sums over. */
  function IntegrateNormalized(g: Grid, data: Integrand, axes: Option<seq<int>>): (r: Result<real>)
    requires g.Valid()
    requires data.Field? ==> |data.values| == CellCount(g.shape)
    requires axes.Some? ==> CoversAllAxes(axes.value, g.NumAxes())
    ensures r.Err? <==> axes.Some? && !AxesAccepted(axes.value, g.NumAxes())
  {
    var values := Broadcast(data, g.shape);
    match axes
    case None => Ok(WeightedSum(values, CellVolumes(g.cellVolumeData, g.shape)))
    case Some(list) =>
      if !AxesAccepted(list, g.NumAxes()) then Err(ValueError)
      else
        VolumeListFits(g.cellVolumeData, g.shape, list);
        Ok(WeightedSum(values, CellVolumes(VolumeListNormalized(g.cellVolumeData, list), g.shape)))
  }

  /**
   * However the axes are listed, integrating over all of them gives the integral over the
   * whole grid.
   */
  lemma IntegrateNormalizedAnyListing(g: Grid, data: Integrand, axes: seq<int>)
    requires g.Valid()
    requires data.Field? ==> |data.values| == CellCount(g.shape)
    requires CoversAllAxes(axes, g.NumAxes()) && AxesAccepted(axes, g.NumAxes())
    ensures IntegrateNormalized(g, data, Some(axes)) == IntegrateNormalized(g, data, None)
  {
    assert VolumeListNormalized(g.cellVolumeData, axes) == g.cellVolumeData;
  }

  /** With non-negative axis numbers the code as written agrees with the corrected one. */
  lemma IntegrateAgreesWithoutNegativeAxes(g: Grid, data: Integrand, axes: Option<seq<int>>)
    requires g.Valid()
    requires data.Field? ==> |data.values| == CellCount(g.shape)
    requires axes.Some? ==> CoversAllAxes(axes.value, g.NumAxes())
    requires axes.Some? ==> forall k :: 0 <= k < |axes.value| ==> axes.value[k] >= 0
    ensures Integrate(g, data, axes) == IntegrateNormalized(g, data, axes)
  {
    if axes.Some? && AxesAccepted(axes.value, g.NumAxes()) {
      assert VolumeList(g.cellVolumeData, axes.value)
             == VolumeListNormalized(g.cellVolumeData, axes.value);
    }
  }

  /** A one-cell grid whose single cell has volume 2. */
  function OneCellGrid(): (g: Grid)
    ensures g.Valid()
  {
    Grid([0], "OneCellGrid", [1], [Bounds(0.0, 2.0)], [false], ["x"], [], [2.0],
         [PerCell([2.0])])
  }

  /**
   * As written, `integrate(data, axes=-1)` on a one-axis grid sums the data without the cell
   * volumes: integrating 1 over a cell of volume 2 gives 1, not 2.
   */
  lemma IntegrateNegativeAxisDropsVolume()
    ensures CoversAllAxes([-1], 1)
    ensures Integrate(OneCellGrid(), Field([1.0]), Some([-1])) == Ok(1.0)
    ensures Integrate(OneCellGrid(), Field([1.0]), None) == Ok(2.0)
    ensures IntegrateNormalized(OneCellGrid(), Field([1.0]), Some([-1])) == Ok(2.0)
  {
    var g := OneCellGrid();
    assert VolumeList(g.cellVolumeData, [-1]) == [Uniform(1.0)];
    assert VolumeListNormalized(g.cellVolumeData, [-1]) == g.cellVolumeData;
    SingleCellVolume([Uniform(1.0)]);
    SingleCellVolume(g.cellVolumeData);
    assert WeightedSum([1.0], [1.0]) == 1.0 * 1.0 by { assert [1.0][..0] == []; }
    assert WeightedSum([1.0], [2.0]) == 2.0 * 1.0 by { assert [1.0][..0] == [] && [2.0][..0] == []; }
  }

  /** On a grid of one axis and one cell the only cell volume is the axis factor. */
  lemma SingleCellVolume(vd: seq<AxisVolume>)
    requires VolumesFit(vd, [1])
    ensures CellVolumes(vd, [1]) == [AxisVol(vd[0], 0)]
  {
    var shape: seq<nat> := [1];
    assert CellCount(shape) == 1 by { assert shape[..0] == []; }
    var idx := Unflatten(0, shape);
    assert idx == [0];
    var f := Factors(vd, shape, idx);
    assert f == [AxisVol(vd[0], 0)];
    assert f[..0] == [];
    assert Product(f) == 1.0 * AxisVol(vd[0], 0);
  }

  /** `range(num_axes)`. */
  function AllAxes(n: nat): (r: seq<int>)
    ensures |r| == n && forall a :: 0 <= a < n ==> r[a] == a
  {
    seq(n, a => a)
  }

  /** Listing every axis explicitly gives the same integral as omitting `axes`. */
  lemma IntegrateAllAxesListed(g: Grid, data: Integrand)
    requires g.Valid()
    requires data.Field? ==> |data.values| == CellCount(g.shape)
    ensures CoversAllAxes(AllAxes(g.NumAxes()), g.NumAxes())
    ensures Integrate(g, data, Some(AllAxes(g.NumAxes()))) == Integrate(g, data, None)
  {
    var n := g.NumAxes();
    var list := AllAxes(n);
    forall a | 0 <= a < n ensures a in list { assert list[a] == a; }
    assert VolumeList(g.cellVolumeData, list) == g.cellVolumeData;
  }

  /** Integrating the constant 1 gives the total volume, the sum of all cell volumes. */
  lemma IntegrateOne(g: Grid)
    requires g.Valid()
    ensures IntegrateNormalized(g, Constant(1.0), None)
            == Ok(Sum(CellVolumes(g.cellVolumeData, g.shape)))
  {
    var vols := CellVolumes(g.cellVolumeData, g.shape);
    OnesWeightedSum(vols);
  }

  lemma {:induction false} OnesWeightedSum(ws: seq<real>)
    ensures WeightedSum(seq(|ws|, _ => 1.0), ws) == Sum(ws)
  {
    if |ws| > 0 {
      OnesWeightedSum(ws[..|ws| - 1]);
      assert seq(|ws|, _ => 1.0)[..|ws| - 1] == seq(|ws| - 1, _ => 1.0);
    }
  }

  /** On a uniform grid the integral is the cell volume times the plain sum. */
  lemma UniformIntegral(vd: seq<AxisVolume>, shape: seq<nat>, xs: seq<real>, c: real)
    requires VolumesFit(vd, shape) && Positive(shape) && UniformCellVolumes(vd)
    requires |xs| == CellCount(shape) && c == UniformVolume(vd)
    ensures WeightedSum(xs, CellVolumes(vd, shape)) == c * Sum(xs)
  {
    UniformCellVolumesConstant(vd, shape);
    WeightedSumUniform(xs, CellVolumes(vd, shape), c);
  }

  lemma WeightedSumStep(xs: seq<real>, ws: seq<real>, i: nat)
    requires |xs| == |ws| && i < |xs|
    ensures WeightedSum(xs[..i + 1], ws[..i + 1]) == WeightedSum(xs[..i], ws[..i]) + ws[i] * xs[i]
  {
    assert xs[..i + 1][..i] == xs[..i] && ws[..i + 1][..i] == ws[..i];
  }

  /**
   * The function returned by `make_integrator`, applied to `arr`: the product of the volume
   * data times the sum on a uniform grid, otherwise a loop accumulating volume times value.
   */
  method Integrator(g: Grid, arr: seq<real>) returns (total: real)
    requires g.Valid() && |arr| == CellCount(g.shape)
    ensures total == WeightedSum(arr, CellVolumes(g.cellVolumeData, g.shape))
    ensures IntegrateNormalized(g, Field(arr), None) == Ok(total)
  {
    var vd := g.cellVolumeData;
    var vols := CellVolumes(vd, g.shape);
    if UniformCellVolumes(vd) {
      var cellVolume := UniformVolume(vd);
      total := cellVolume * Sum(arr);
      UniformIntegral(vd, g.shape, arr, cellVolume);
    } else {
      total := 0.0;
      var i := 0;
      while i < |arr|
        invariant 0 <= i <= |arr|
        invariant total == WeightedSum(arr[..i], vols[..i])
      {
        WeightedSumStep(arr, vols, i);
        total := total + vols[i] * arr[i];
        i := i + 1;
      }
      assert arr[..i] == arr && vols[..i] == vols;
    }
  }
}

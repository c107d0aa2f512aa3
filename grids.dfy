/**
 * The attributes that `GridBase` reads from every concrete grid, and the structural helpers
 * it derives from them: equality, compatibility, the cache key, `numba_type`,
 * `_iter_boundaries` and `get_axis_index`.
 */
module Grids {
  import opened Wrappers
  import opened RowMajor

  /** A grid class, identified by its position in the process-wide list of classes. */
  type ClassId = nat

  /** Lower and upper bound of one axis, an entry of `axes_bounds`. */
  datatype Bounds = Bounds(lo: real, hi: real)

  /**
   * One entry of `cell_volume_data`: a single number when every cell along the axis has the
   * same extent, or one number per cell.
   */
  datatype AxisVolume = Uniform(v: real) | PerCell(vs: seq<real>)

  /** The volume factor of axis data `av` for the cell with index `k` along that axis. */
  function AxisVol(av: AxisVolume, k: nat): real
    requires av.PerCell? ==> k < |av.vs|
  {
    match av
    case Uniform(v) => v
    case PerCell(vs) => vs[k]
  }

  /** Whether axis data `av` fits an axis of `n` cells and gives every cell a positive volume. */
  predicate AxisVolumeFits(av: AxisVolume, n: nat) {
    match av
    case Uniform(v) => v > 0.0
    case PerCell(vs) => |vs| == n && forall k :: 0 <= k < n ==> vs[k] > 0.0
  }

  /**
   * A grid as `GridBase` sees it. `mro` lists the grid's class followed by its ancestors up
   * to `GridBase` (Python's method resolution order without `object`); `className` is the
   * `__name__` of `mro[0]`.
   */
  datatype Grid = Grid(
    mro: seq<ClassId>,
    className: string,
    shape: seq<nat>,
    axesBounds: seq<Bounds>,
    periodic: seq<bool>,
    axes: seq<string>,
    axesSymmetric: seq<string>,
    discretization: seq<real>,
    cellVolumeData: seq<AxisVolume>)
  {
    function NumAxes(): nat { |shape| }

    /** What the concrete grid classes establish on construction. */
    predicate Valid() {
      && |mro| >= 1
      && |shape| >= 1
      && Positive(shape)
      && |axesBounds| == |shape|
      && (forall a :: 0 <= a < |shape| ==> axesBounds[a].lo < axesBounds[a].hi)
      && |periodic| == |shape|
      && |axes| == |shape|
      && |discretization| == |shape|
      && (forall a :: 0 <= a < |shape| ==> discretization[a] > 0.0)
      && |cellVolumeData| == |shape|
      && (forall a :: 0 <= a < |shape| ==> AxisVolumeFits(cellVolumeData[a], shape[a]))
    }
  }

  // ---------------------------------------------------------------------------------------
  // Equality, compatibility and the cache key

  /**
   * `GridBase.__eq__`: `None` stands for `NotImplemented`, returned when `other` is not an
   * instance of `self`'s class (or of a subclass of it).
   */
  function Eq(self: Grid, other: Grid): (r: Option<bool>)
    requires |self.mro| >= 1
    ensures r.None? <==> self.mro[0] !in other.mro
  {
    if self.mro[0] !in other.mro then None
    else Some(self.shape == other.shape && self.axesBounds == other.axesBounds
              && self.periodic == other.periodic)
  }

  /** `compatible_with`: the same class, shape and bounds; periodicity may differ. */
  function CompatibleWith(self: Grid, other: Grid): (r: bool)
    requires |self.mro| >= 1 && |other.mro| >= 1
    ensures r ==> Eq(self, other) == Some(self.periodic == other.periodic)
  {
    self.mro[0] == other.mro[0] && self.shape == other.shape
    && self.axesBounds == other.axesBounds
  }

  /** The tuple that `_cache_hash` hashes. */
  datatype CacheKey = CacheKey(className: string, shape: seq<nat>, bounds: seq<Bounds>,
                               periodic: seq<bool>)

  function CacheKeyOf(g: Grid): CacheKey {
    CacheKey(g.className, g.shape, g.axesBounds, g.periodic)
  }

  /** Every grid equals itself. */
  lemma EqReflexive(g: Grid)
    requires |g.mro| >= 1
    ensures Eq(g, g) == Some(true)
  {
  }

  /**
   * For two grids of one class, equality is compatibility plus equal periodicity, and it
   * holds in both directions.
   */
  lemma EqIsCompatibleAndPeriodic(a: Grid, b: Grid)
    requires |a.mro| >= 1 && |b.mro| >= 1 && a.mro[0] == b.mro[0]
    ensures Eq(a, b).Some? && Eq(b, a).Some?
    ensures Eq(a, b).value <==> CompatibleWith(a, b) && a.periodic == b.periodic
    ensures Eq(a, b) == Eq(b, a)
  {
  }

  /** For two grids of one class, equality holds exactly when the cache keys agree. */
  lemma EqIffSameCacheKey(a: Grid, b: Grid)
    requires |a.mro| >= 1 && |b.mro| >= 1 && a.mro[0] == b.mro[0]
    requires a.className == b.className
    ensures Eq(a, b) == Some(true) <==> CacheKeyOf(a) == CacheKeyOf(b)
  {
  }

  /**
   * `__eq__` tests `isinstance`, not the exact class, while the cache key holds the class
   * name: a grid of a subclass with the same shape, bounds and periodicity compares equal
   * to a base-class grid and still has a different cache key.
   */
  lemma SubclassEqualButDifferentKey(a: Grid, sub: ClassId, subName: string)
    requires |a.mro| >= 1 && subName != a.className
    ensures var b := a.(mro := [sub] + a.mro, className := subName);
            Eq(a, b) == Some(true) && !CompatibleWith(a, b) == (sub != a.mro[0])
            && CacheKeyOf(a) != CacheKeyOf(b)
  {
    var b := a.(mro := [sub] + a.mro, className := subName);
    assert b.mro[1] == a.mro[0];
  }

  // ---------------------------------------------------------------------------------------
  // numba_type

  /** `", ".join([":"] * n)`. */
  function Colons(n: nat): string {
    if n == 0 then "" else if n == 1 then ":" else Colons(n - 1) + ", :"
  }

  /** `numba_type`: the numba signature of an array with one dimension per axis. */
  function NumbaType(g: Grid): string {
    "f8[" + Colons(g.NumAxes()) + "]"
  }

  /** How often character `c` occurs in `s`. */
  function Occurrences(s: string, c: char): nat {
    if |s| == 0 then 0 else Occurrences(s[..|s| - 1], c) + (if s[|s| - 1] == c then 1 else 0)
  }

  lemma {:induction false} OccurrencesAppend(s: string, t: string, c: char)
    ensures Occurrences(s + t, c) == Occurrences(s, c) + Occurrences(t, c)
    decreases |t|
  {
    if |t| > 0 {
      assert (s + t)[..|s + t| - 1] == s + t[..|t| - 1];
      OccurrencesAppend(s, t[..|t| - 1], c);
    } else {
      assert s + t == s;
    }
  }

  lemma {:induction false} ColonsCount(n: nat)
    ensures Occurrences(Colons(n), ':') == n
    ensures n >= 1 ==> |Colons(n)| == 3 * n - 2
  {
    if n > 1 {
      ColonsCount(n - 1);
      OccurrencesAppend(Colons(n - 1), ", :", ':');
      assert Occurrences(", :", ':') == 1 by {
        assert ", :"[..2] == ", ";
        assert ", "[..1] == ",";
      }
    }
  }

  /**
   * The signature names a float64 array with exactly one `:` per axis, e.g. `f8[:, :]` for
   * a two-axis grid.
   */
  lemma NumbaTypeDimensions(g: Grid)
    requires g.NumAxes() >= 1
    ensures var t := NumbaType(g);
            t[..3] == "f8[" && t[|t| - 1] == ']' && Occurrences(t, ':') == g.NumAxes()
            && |t| == 3 * g.NumAxes() + 2
  {
    ColonsCount(g.NumAxes());
    OccurrencesAppend("f8[", Colons(g.NumAxes()), ':');
    OccurrencesAppend("f8[" + Colons(g.NumAxes()), "]", ':');
  }

  // ---------------------------------------------------------------------------------------
  // _iter_boundaries

  /** `_iter_boundaries`: `itertools.product(range(num_axes), [True, False])`. */
  function IterBoundaries(g: Grid): (r: seq<(nat, bool)>)
    ensures |r| == 2 * g.NumAxes()
  {
    seq(2 * g.NumAxes(), k => (k / 2, k % 2 == 0))
  }

  /**
   * Every boundary (an axis and a side) is produced exactly once, the upper side of an axis
   * right before its lower side.
   */
  lemma IterBoundariesEachOnce(g: Grid)
    ensures forall a: nat, upper: bool :: a < g.NumAxes() ==>
              IterBoundaries(g)[2 * a + (if upper then 0 else 1)] == (a, upper)
    ensures forall k1, k2 :: 0 <= k1 < k2 < 2 * g.NumAxes() ==>
              IterBoundaries(g)[k1] != IterBoundaries(g)[k2]
    ensures forall k :: 0 <= k < 2 * g.NumAxes() ==> IterBoundaries(g)[k].0 < g.NumAxes()
  {
    var r := IterBoundaries(g);
    forall a: nat, upper: bool | a < g.NumAxes()
      ensures r[2 * a + (if upper then 0 else 1)] == (a, upper)
    {
      DivModStep(a, if upper then 0 else 1, 2);
    }
    forall k1, k2 | 0 <= k1 < k2 < 2 * g.NumAxes()
      ensures r[k1] != r[k2]
    {
    }
  }

  // ---------------------------------------------------------------------------------------
  // get_axis_index

  /** `list.index`: the position of the first occurrence of `x` in `s`. */
  function FirstIndex(s: seq<string>, x: string): (r: Option<nat>)
    ensures r.Some? <==> x in s
    ensures r.Some? ==> r.value < |s| && s[r.value] == x
                        && forall j :: 0 <= j < r.value ==> s[j] != x
  {
    if |s| == 0 then None
    else if s[0] == x then Some(0)
    else
      match FirstIndex(s[1..], x)
      case None => None
      case Some(k) => Some(k + 1)
  }

  /** The key passed to `get_axis_index`: an axis name, an integer, or anything else. */
  datatype AxisKey = Name(name: string) | Index(i: int) | Other

  /** The axis names `get_axis_index` searches. */
  function AxisNames(g: Grid, allowSymmetric: bool): seq<string> {
    if allowSymmetric then g.axes + g.axesSymmetric else g.axes
  }

  /** `get_axis_index`. */
  function GetAxisIndex(g: Grid, key: AxisKey, allowSymmetric: bool): (r: Result<int>)
    ensures key.Other? ==> r == Err(IndexError)
    ensures key.Index? ==> r == Ok(key.i)
    ensures key.Name? ==> (r.Ok? <==> key.name in AxisNames(g, allowSymmetric))
    ensures key.Name? && r.Err? ==> r.error == IndexError
    ensures key.Name? && r.Ok? ==>
              var names := AxisNames(g, allowSymmetric);
              0 <= r.value < |names| && names[r.value] == key.name
              && forall j :: 0 <= j < r.value ==> names[j] != key.name
  {
    match key
    case Name(name) =>
      (match FirstIndex(AxisNames(g, allowSymmetric), name)
       case Some(k) => Ok(k)
       case None => Err(IndexError))
    case Index(i) => Ok(i)
    case Other => Err(IndexError)
  }

  /**
   * A name of a discretised axis resolves to its position in `axes` whether or not symmetric
   * axes are allowed; a name found only among the symmetric axes resolves only when they are.
   */
  lemma AxisIndexSymmetric(g: Grid, name: string)
    ensures name in g.axes ==>
              GetAxisIndex(g, Name(name), true) == GetAxisIndex(g, Name(name), false)
    ensures name !in g.axes && name in g.axesSymmetric ==>
              GetAxisIndex(g, Name(name), false) == Err(IndexError)
              && GetAxisIndex(g, Name(name), true).Ok?
              && GetAxisIndex(g, Name(name), true).value >= |g.axes|
  {
    if name in g.axes {
      var k := FirstIndex(g.axes, name).value;
      var all := g.axes + g.axesSymmetric;
      assert all[k] == name;
      assert forall j :: 0 <= j < k ==> all[j] != name;
    }
  }
}

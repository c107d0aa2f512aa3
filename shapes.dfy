/**
 * The two free functions at the top of `pde/grids/base.py`: `_check_shape`, which turns a
 * user-supplied shape into a tuple of cell counts, and `discretize_interval`, which places
 * equally spaced cell centres on an interval.
 */
module Shapes {
  import opened Wrappers

  /** Python's `int(x)` on a float: truncation toward zero. */
  function Trunc(x: real): (r: int)
    ensures x >= 0.0 ==> r as real <= x < r as real + 1.0
    ensures x < 0.0 ==> r as real - 1.0 < x <= r as real
  {
    if x >= 0.0 then x.Floor else -((-x).Floor)
  }

  /** Whether `dim == int(dim) and dim >= 1` holds, i.e. `x` is a whole number of cells. */
  predicate IsCellCount(x: real) {
    x == Trunc(x) as real && x >= 1.0
  }

  /** What `_check_shape` accepts: a single number, or anything iterable over numbers. */
  datatype ShapeArg = Scalar(x: real) | Items(xs: seq<real>)

  /** The entries `_check_shape` iterates over; a single number counts as a one-element list. */
  function Entries(arg: ShapeArg): seq<real> {
    match arg
    case Scalar(x) => [x]
    case Items(xs) => xs
  }

  /** A shape `_check_shape` accepts: at least one axis, every entry a whole number >= 1. */
  predicate IsValidShape(xs: seq<real>) {
    |xs| >= 1 && forall i :: 0 <= i < |xs| ==> IsCellCount(xs[i])
  }

  /**
   * `_check_shape`: succeeds exactly on valid shapes and then returns the same number of
   * axes with the same values as integers; otherwise a ValueError.
   */
  method CheckShape(arg: ShapeArg) returns (r: Result<seq<nat>>)
    ensures r.Ok? <==> IsValidShape(Entries(arg))
    ensures r.Err? ==> r.error == ValueError
    ensures r.Ok? ==> |r.value| == |Entries(arg)|
    ensures r.Ok? ==> forall i :: 0 <= i < |r.value| ==>
                        r.value[i] >= 1 && r.value[i] as real == Entries(arg)[i]
  {
    var shape := Entries(arg);
    if |shape| == 0 {
      return Err(ValueError);
    }
    var result: seq<nat> := [];
    var k := 0;
    while k < |shape|
      invariant 0 <= k <= |shape|
      invariant |result| == k
      invariant forall i :: 0 <= i < k ==> IsCellCount(shape[i])
      invariant forall i :: 0 <= i < k ==> result[i] >= 1 && result[i] as real == shape[i]
    {
      var dim := shape[k];
      if dim == Trunc(dim) as real && dim >= 1.0 {
        result := result + [Trunc(dim)];
      } else {
        return Err(ValueError);
      }
      k := k + 1;
    }
    return Ok(result);
  }

  /** Cell centres and width of an interval: the pair `(midpoints, dx)`. */
  datatype Discretization = Discretization(centres: seq<real>, dx: real)

  /**
   * `discretize_interval`: `dx = (x_max - x_min) / num` and centre `i` at
   * `x_min + (i + 1/2) dx`. Dividing a Python float by `num == 0` raises; a negative `num`
   * gives an empty `numpy.arange` and so no centres.
   */
  function DiscretizeInterval(xMin: real, xMax: real, num: int): (r: Result<Discretization>)
    ensures r.Err? <==> num == 0
    ensures r.Err? ==> r.error == ZeroDivisionError
    ensures r.Ok? ==> |r.value.centres| == (if num < 0 then 0 else num)
  {
    if num == 0 then Err(ZeroDivisionError)
    else
      var dx := (xMax - xMin) / num as real;
      Ok(Discretization(seq(if num < 0 then 0 else num, i => (i as real + 0.5) * dx + xMin), dx))
  }

  /** The `num` cells of width `dx` exactly tile the interval. */
  lemma DiscretizeTiles(xMin: real, xMax: real, num: int)
    requires num > 0
    ensures DiscretizeInterval(xMin, xMax, num).Ok?
    ensures DiscretizeInterval(xMin, xMax, num).value.dx * num as real == xMax - xMin
  {
  }

  /** The first and last centres sit half a cell inside the bounds. */
  lemma DiscretizeEnds(xMin: real, xMax: real, num: int)
    requires num > 0
    ensures var d := DiscretizeInterval(xMin, xMax, num).value;
            d.centres[0] == xMin + d.dx / 2.0 && d.centres[num - 1] == xMax - d.dx / 2.0
  {
    var d := DiscretizeInterval(xMin, xMax, num).value;
    DiscretizeTiles(xMin, xMax, num);
    calc {
      d.centres[num - 1];
      ((num - 1) as real + 0.5) * d.dx + xMin;
      num as real * d.dx - d.dx / 2.0 + xMin;
      xMax - d.dx / 2.0;
    }
  }

  /** Neighbouring centres are `dx` apart, so they strictly increase when `x_min < x_max`. */
  lemma DiscretizeIncreasing(xMin: real, xMax: real, num: int, i: int, j: int)
    requires num > 0 && xMin < xMax
    requires 0 <= i < j < num
    ensures var d := DiscretizeInterval(xMin, xMax, num).value;
            d.dx > 0.0 && d.centres[i] < d.centres[j] && d.centres[i + 1] - d.centres[i] == d.dx
  {
    var d := DiscretizeInterval(xMin, xMax, num).value;
    assert d.dx > 0.0;
    assert d.centres[j] - d.centres[i] == (j - i) as real * d.dx;
  }

  /** Every centre lies strictly inside the interval when `x_min < x_max`. */
  lemma DiscretizeInside(xMin: real, xMax: real, num: int, i: int)
    requires num > 0 && xMin < xMax
    requires 0 <= i < num
    ensures var d := DiscretizeInterval(xMin, xMax, num).value;
            xMin < d.centres[i] < xMax
  {
    var d := DiscretizeInterval(xMin, xMax, num).value;
    DiscretizeTiles(xMin, xMax, num);
    assert d.dx > 0.0;
    assert d.centres[i] < num as real * d.dx + xMin by {
      var gap := num as real - (i as real + 0.5);
      assert gap > 0.0;
      assert gap * d.dx > 0.0;
    }
  }
}

/**
 * Flat, row-major ("C order") addressing of multi-axis arrays, the layout that numpy uses
 * for the grid data and that `make_integrator` and `make_cell_volume_compiled` walk with
 * `arr.flat[i]` and `cell_volumes.flat[idx]`. Every multi-axis array of the model is a flat
 * sequence or array addressed through `Flatten`.
 */
module RowMajor {

  /** Whether every axis has at least one entry. */
  predicate Positive(shape: seq<nat>) {
    forall a :: 0 <= a < |shape| ==> shape[a] >= 1
  }

  /** Number of entries of an array of this shape (`numpy.prod(shape)`). */
  function CellCount(shape: seq<nat>): nat
    decreases |shape|
  {
    if |shape| == 0 then 1 else CellCount(shape[..|shape| - 1]) * shape[|shape| - 1]
  }

  /** Whether `idx` is a valid multi-index into an array of this shape. */
  predicate InBounds(idx: seq<int>, shape: seq<nat>) {
    |idx| == |shape| && forall a :: 0 <= a < |shape| ==> 0 <= idx[a] < shape[a]
  }

  /**
   * The product of two sizes. Products are kept behind this name so that the solver treats
   * them as single terms unless a proof asks for more.
   */
  function Mul(a: nat, b: nat): nat {
    a * b
  }

  lemma MulMonotone(a: nat, b: nat, c: nat)
    requires a <= b
    ensures a * c <= b * c
  {
  }

  lemma StepBound(p: nat, q: nat, bigP: nat, bigQ: nat)
    requires p < bigP && q < bigQ
    ensures p * bigQ + q < bigP * bigQ
  {
    assert (p + 1) * bigQ == p * bigQ + bigQ;
    MulMonotone(p + 1, bigP, bigQ);
  }

  /** A strictly larger row number starts at least one whole row later. */
  lemma RowStart(p1: nat, p2: nat, s: nat)
    ensures p1 < p2 ==> p1 * s + s <= p2 * s
  {
    if p1 < p2 {
      assert (p1 + 1) * s == p1 * s + s;
      MulMonotone(p1 + 1, p2, s);
    }
  }

  /** A row number and an offset within the row are determined by their flat position. */
  lemma RowOffsetUnique(p1: nat, q1: nat, p2: nat, q2: nat, s: nat)
    requires q1 < s && q2 < s && p1 * s + q1 == p2 * s + q2
    ensures p1 == p2 && q1 == q2
  {
    RowStart(p1, p2, s);
    RowStart(p2, p1, s);
  }

  /** Division by `s` recovers both parts of `p * s + q` when `q < s`. */
  lemma DivModStep(p: nat, q: nat, s: nat)
    requires q < s
    ensures (p * s + q) / s == p && (p * s + q) % s == q
  {
    var i := p * s + q;
    RowOffsetUnique(p, q, i / s, i % s, s);
  }

  lemma {:induction false} CellCountPositive(shape: seq<nat>)
    requires Positive(shape)
    ensures CellCount(shape) >= 1
    decreases |shape|
  {
    if |shape| > 0 {
      CellCountPositive(shape[..|shape| - 1]);
      MulMonotone(1, CellCount(shape[..|shape| - 1]), shape[|shape| - 1]);
    }
  }

  /** The flat position of multi-index `idx`; it always lies inside the flat array. */
  function Flatten(idx: seq<int>, shape: seq<nat>): (r: nat)
    requires InBounds(idx, shape)
    ensures r < CellCount(shape)
    decreases |shape|
  {
    if |shape| == 0 then 0
    else
      var n := |shape| - 1;
      assert InBounds(idx[..n], shape[..n]);
      var p := Flatten(idx[..n], shape[..n]);
      StepBound(p, idx[n], CellCount(shape[..n]), shape[n]);
      Mul(p, shape[n]) + idx[n]
  }

  /** The multi-index stored at flat position `i`; `Flatten` maps it back to `i`. */
  function Unflatten(i: nat, shape: seq<nat>): (idx: seq<int>)
    requires Positive(shape) && i < CellCount(shape)
    ensures InBounds(idx, shape) && Flatten(idx, shape) == i
    decreases |shape|
  {
    if |shape| == 0 then []
    else
      var n := |shape| - 1;
      var s := shape[n];
      QuotientBelow(i, s, CellCount(shape[..n]));
      var prefix := Unflatten(i / s, shape[..n]);
      var idx := prefix + [i % s];
      FlattenLast(idx, shape);
      assert idx[..n] == prefix;
      DivModParts(i, s);
      idx
  }

  /** A position below `head` rows of `s` entries lies in one of those rows. */
  lemma QuotientBelow(i: nat, s: nat, head: nat)
    requires s > 0 && i < head * s
    ensures i / s < head
  {
    if i / s >= head {
      MulMonotone(head, i / s, s);
    }
  }

  /** A position is its row number times the row length plus its offset in the row. */
  lemma DivModParts(i: nat, s: nat)
    requires s > 0
    ensures Mul(i / s, s) + i % s == i
  {
  }

  /** `Flatten` of an in-bounds multi-index, one step unfolded. */
  lemma FlattenLast(idx: seq<int>, shape: seq<nat>)
    requires |shape| > 0 && InBounds(idx, shape)
    ensures var n := |shape| - 1;
            InBounds(idx[..n], shape[..n])
            && Flatten(idx, shape) == Mul(Flatten(idx[..n], shape[..n]), shape[n]) + idx[n]
  {
  }

  /** Flat addressing is one-to-one: unflattening a flattened multi-index gives it back. */
  lemma {:induction false} UnflattenFlatten(idx: seq<int>, shape: seq<nat>)
    requires Positive(shape) && InBounds(idx, shape)
    ensures Unflatten(Flatten(idx, shape), shape) == idx
    decreases |shape|
  {
    if |shape| > 0 {
      var n := |shape| - 1;
      FlattenLast(idx, shape);
      var p := Flatten(idx[..n], shape[..n]);
      var i := Flatten(idx, shape);
      RowOfPosition(i, p, idx[n], shape[n]);
      UnflattenFlatten(idx[..n], shape[..n]);
      UnflattenStep(i, shape);
      calc {
        Unflatten(i, shape);
        Unflatten(i / shape[n], shape[..n]) + [i % shape[n]];
        Unflatten(p, shape[..n]) + [idx[n]];
        idx[..n] + [idx[n]];
        idx;
      }
    }
  }

  /** The row number and the offset of position `p * s + q` are `p` and `q`. */
  lemma RowOfPosition(i: nat, p: nat, q: nat, s: nat)
    requires q < s && i == Mul(p, s) + q
    ensures i / s == p && i % s == q
  {
    DivModStep(p, q, s);
  }

  /** The last entry of an unflattened position is its remainder by the last size. */
  lemma UnflattenStep(i: nat, shape: seq<nat>)
    requires Positive(shape) && |shape| > 0 && i < CellCount(shape)
    ensures var n := |shape| - 1;
            i / shape[n] < CellCount(shape[..n])
            && Unflatten(i, shape) == Unflatten(i / shape[n], shape[..n]) + [i % shape[n]]
  {
  }

  /** Two in-bounds multi-indices share a flat position only if they are equal. */
  lemma FlattenInjective(idx1: seq<int>, idx2: seq<int>, shape: seq<nat>)
    requires Positive(shape) && InBounds(idx1, shape) && InBounds(idx2, shape)
    requires Flatten(idx1, shape) == Flatten(idx2, shape)
    ensures idx1 == idx2
  {
    UnflattenFlatten(idx1, shape);
    UnflattenFlatten(idx2, shape);
  }
}

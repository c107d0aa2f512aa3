/**
 * Full data arrays: the grid data padded with one ghost cell at each end of every axis
 * (`_shape_full`, `_idx_valid`), and the helpers that read and write the valid interior of
 * such an array (`_make_get_valid`, `_make_set_valid`). Arrays are flat and row-major.
 */
module GhostCells {
  import opened Wrappers
  import opened RowMajor

  /** `_shape_full`: every axis gains two ghost cells. */
  function ShapeFull(shape: seq<nat>): (r: seq<nat>)
    ensures |r| == |shape| && Positive(r)
  {
    seq(|shape|, a requires 0 <= a < |shape| => shape[a] + 2)
  }

  /** A Python `slice(start, stop)`. */
  datatype Slice = Slice(start: nat, stop: nat)

  /** `_idx_valid`: the slice `1 : s + 1` of the full data along every axis. */
  function IdxValid(shape: seq<nat>): (r: seq<Slice>)
    ensures |r| == |shape|
  {
    seq(|shape|, a requires 0 <= a < |shape| => Slice(1, shape[a] + 1))
  }

  /**
   * The valid slices drop exactly one ghost cell at each end of each axis of the full shape
   * and keep the grid's own number of cells.
   */
  lemma IdxValidDropsOneGhostEachSide(shape: seq<nat>)
    ensures forall a :: 0 <= a < |shape| ==>
              var sl := IdxValid(shape)[a];
              sl.start == 1 && ShapeFull(shape)[a] - sl.stop == 1
              && sl.stop - sl.start == shape[a]
  {
  }

  /** Whether full multi-index `fidx` lies inside every valid slice. */
  predicate InValidSlices(fidx: seq<int>, shape: seq<nat>)
    requires |fidx| == |shape|
  {
    forall a :: 0 <= a < |shape| ==>
      IdxValid(shape)[a].start <= fidx[a] < IdxValid(shape)[a].stop
  }

  function Shift(idx: seq<int>, d: int): (r: seq<int>)
    ensures |r| == |idx|
  {
    seq(|idx|, a requires 0 <= a < |idx| => idx[a] + d)
  }

  /** The full-array position of the valid cell at flat position `i`. */
  function ValidToFull(i: nat, shape: seq<nat>): (k: nat)
    requires Positive(shape) && i < CellCount(shape)
    ensures k < CellCount(ShapeFull(shape))
  {
    var idx := Unflatten(i, shape);
    assert InBounds(Shift(idx, 1), ShapeFull(shape));
    Flatten(Shift(idx, 1), ShapeFull(shape))
  }

  /** Whether full-array position `k` holds a valid (non-ghost) cell. */
  predicate IsInterior(k: nat, shape: seq<nat>)
    requires Positive(shape) && k < CellCount(ShapeFull(shape))
  {
    InValidSlices(Unflatten(k, ShapeFull(shape)), shape)
  }

  /** The valid flat position of interior full-array position `k`. */
  function FullToValid(k: nat, shape: seq<nat>): (i: nat)
    requires Positive(shape) && k < CellCount(ShapeFull(shape)) && IsInterior(k, shape)
    ensures i < CellCount(shape)
  {
    var fidx := Unflatten(k, ShapeFull(shape));
    assert InBounds(Shift(fidx, -1), shape);
    Flatten(Shift(fidx, -1), shape)
  }

  /** Valid positions and interior full positions correspond one to one. */
  lemma ValidFullRoundTrip(i: nat, shape: seq<nat>)
    requires Positive(shape) && i < CellCount(shape)
    ensures IsInterior(ValidToFull(i, shape), shape)
    ensures FullToValid(ValidToFull(i, shape), shape) == i
  {
    var idx := Unflatten(i, shape);
    UnflattenFlatten(Shift(idx, 1), ShapeFull(shape));
    assert Shift(Shift(idx, 1), -1) == idx;
  }

  lemma FullValidRoundTrip(k: nat, shape: seq<nat>)
    requires Positive(shape) && k < CellCount(ShapeFull(shape)) && IsInterior(k, shape)
    ensures ValidToFull(FullToValid(k, shape), shape) == k
  {
    var fidx := Unflatten(k, ShapeFull(shape));
    assert InBounds(Shift(fidx, -1), shape);
    UnflattenFlatten(Shift(fidx, -1), shape);
    assert Shift(Shift(fidx, -1), 1) == fidx;
  }

  /** A full array whose valid part is `value` and whose ghost cells are those of `full`. */
  function WithValid(full: seq<real>, shape: seq<nat>, value: seq<real>): (r: seq<real>)
    requires Positive(shape) && |full| == CellCount(ShapeFull(shape))
    requires |value| == CellCount(shape)
    ensures |r| == |full|
  {
    seq(|full|, k requires 0 <= k < |full| =>
      if IsInterior(k, shape) then value[FullToValid(k, shape)] else full[k])
  }

  /** `get_valid`: the valid part of a full array, specialised for one to three axes. */
  function GetValid(full: seq<real>, shape: seq<nat>): (r: Result<seq<real>>)
    requires Positive(shape) && |full| == CellCount(ShapeFull(shape))
    ensures r.Ok? <==> 1 <= |shape| <= 3
    ensures r.Err? ==> r.error == NotImplementedError
    ensures r.Ok? ==> |r.value| == CellCount(shape)
  {
    if 1 <= |shape| <= 3 then
      Ok(seq(CellCount(shape), i requires 0 <= i < CellCount(shape) => full[ValidToFull(i, shape)]))
    else Err(NotImplementedError)
  }

  /**
   * `set_valid`: writes `value` into the valid part of `arr` in place and leaves the ghost
   * cells alone, specialised for one to three axes.
   */
  method SetValid(arr: array<real>, shape: seq<nat>, value: seq<real>) returns (r: Outcome)
    requires Positive(shape) && arr.Length == CellCount(ShapeFull(shape))
    requires |value| == CellCount(shape)
    modifies arr
    ensures r.Pass? <==> 1 <= |shape| <= 3
    ensures r.Fail? ==> r.error == NotImplementedError && arr[..] == old(arr[..])
    ensures r.Pass? ==> arr[..] == WithValid(old(arr[..]), shape, value)
  {
    if !(1 <= |shape| <= 3) {
      return Fail(NotImplementedError);
    }
    ghost var before := arr[..];
    ValidToFullInjective(shape);
    forall i | 0 <= i < CellCount(shape) {
      arr[ValidToFull(i, shape)] := value[i];
    }
    forall k | 0 <= k < arr.Length
      ensures arr[k] == WithValid(before, shape, value)[k]
    {
      WrittenPositions(before, arr[..], shape, value, k);
    }
    assert arr[..] == WithValid(before, shape, value);
    return Pass;
  }

  lemma ValidToFullInjective(shape: seq<nat>)
    requires Positive(shape)
    ensures forall i1, i2 ::
              (0 <= i1 < CellCount(shape) && 0 <= i2 < CellCount(shape) && i1 != i2)
              ==> ValidToFull(i1, shape) != ValidToFull(i2, shape)
  {
    forall i1, i2 | 0 <= i1 < CellCount(shape) && 0 <= i2 < CellCount(shape)
                    && ValidToFull(i1, shape) == ValidToFull(i2, shape)
      ensures i1 == i2
    {
      ValidFullRoundTrip(i1, shape);
      ValidFullRoundTrip(i2, shape);
    }
  }

  lemma WithValidAtValid(full: seq<real>, shape: seq<nat>, value: seq<real>, i: nat)
    requires Positive(shape) && |full| == CellCount(ShapeFull(shape))
    requires |value| == CellCount(shape) && i < CellCount(shape)
    ensures WithValid(full, shape, value)[ValidToFull(i, shape)] == value[i]
  {
    ValidFullRoundTrip(i, shape);
  }

  /**
   * After `after[ValidToFull(i)] := value[i]` for every valid `i`, and nothing else, each
   * position holds what `WithValid` prescribes.
   */
  lemma WrittenPositions(before: seq<real>, after: seq<real>, shape: seq<nat>,
                         value: seq<real>, k: nat)
    requires Positive(shape) && |before| == |after| == CellCount(ShapeFull(shape))
    requires |value| == CellCount(shape) && k < |after|
    requires forall i :: 0 <= i < CellCount(shape) ==> after[ValidToFull(i, shape)] == value[i]
    requires forall j :: 0 <= j < |after| ==>
               (forall i :: 0 <= i < CellCount(shape) ==> ValidToFull(i, shape) != j)
               ==> after[j] == before[j]
    ensures after[k] == WithValid(before, shape, value)[k]
  {
    if IsInterior(k, shape) {
      FullValidRoundTrip(k, shape);
    } else {
      forall i | 0 <= i < CellCount(shape) ensures ValidToFull(i, shape) != k {
        ValidFullRoundTrip(i, shape);
      }
    }
  }

  /** Reading the valid part back after writing it returns what was written. */
  lemma GetValidOfWithValid(full: seq<real>, shape: seq<nat>, value: seq<real>)
    requires Positive(shape) && |full| == CellCount(ShapeFull(shape))
    requires |value| == CellCount(shape) && 1 <= |shape| <= 3
    ensures GetValid(WithValid(full, shape, value), shape) == Ok(value)
  {
    var got := GetValid(WithValid(full, shape, value), shape).value;
    forall i | 0 <= i < CellCount(shape) ensures got[i] == value[i] {
      WithValidAtValid(full, shape, value, i);
    }
    assert got == value;
  }

  /** Writing back the valid part just read leaves the full array unchanged. */
  lemma WithValidOfGetValid(full: seq<real>, shape: seq<nat>)
    requires Positive(shape) && |full| == CellCount(ShapeFull(shape)) && 1 <= |shape| <= 3
    ensures WithValid(full, shape, GetValid(full, shape).value) == full
  {
    var r := WithValid(full, shape, GetValid(full, shape).value);
    forall k | 0 <= k < |full| ensures r[k] == full[k] {
      if IsInterior(k, shape) {
        FullValidRoundTrip(k, shape);
      }
    }
  }
}

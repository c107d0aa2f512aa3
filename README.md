# GridBase of py-pde, modelled in Dafny

This project models `GridBase`, the abstract base class of the discretisation grids of
py-pde, together with the free functions next to it in `pde/grids/base.py`. It covers:

- shape validation (`_check_shape`) and cell centres on an interval (`discretize_interval`);
- the attributes every concrete grid provides (shape, bounds, periodicity, axis names,
  discretisation, cell-volume data), and the structural helpers built on them: `__eq__`,
  `compatible_with`, the `_cache_hash` key, `numba_type`, `_iter_boundaries`,
  `get_axis_index`, `_shape_full`, `_idx_valid` and the get/set-valid functions that move
  data between the valid cells and the ghost-padded full array;
- the operator registry: every subclass gets its own table (`__init_subclass__`),
  `register_operator` writes into the table of the class it is called on, `operators`
  unites the tables along the method resolution order, `_get_operator_info` takes the most
  derived definition, and `registered_operators` lists the public, non-deprecated classes;
- `normalize_point`, both on a copy and rewriting a caller's array of doubles in place, and
  the in-place compiled normaliser: periodic axes wrap, other axes reflect (Python's float
  `%` written out with `Floor`);
- cell volumes: the reduction `functools.reduce(numpy.outer, ...)` as written, and the
  product of the per-axis factors it is meant to give (the two agree on one and two axes);
  `integrate`, the compiled cell-volume lookup and `make_integrator`;
- the compiled interpolators on the ghost-padded full data (one, two and three axes) and
  the compiled inserters (one, two and three axes), which spread an amount over the cells
  around a point in place.

Multi-axis arrays are flat, row-major (numpy's C order) sequences or arrays, addressed
through `RowMajor.Flatten`. The two- and three-axis interpolators read nested sequences.
Floats are Dafny `real`s. Errors are `Result`/`Outcome` values carrying the Python exception
they stand for.

Each source file becomes one module:

| file | module | what it models |
|---|---|---|
| `wrappers.dfy` | `Wrappers` | errors |
| `row_major.dfy` | `RowMajor` | flat indexing |
| `shapes.dfy` | `Shapes` | shapes and intervals |
| `grids.dfy` | `Grids` | the grid value and its structural helpers |
| `ghost_cells.dfy` | `GhostCells` | valid and full data |
| `registry.dfy` | `Registry` | operators |
| `normalize.dfy` | `Normalize` | points |
| `integration.dfy` | `Integration` | volumes and integrals |
| `interpolation.dfy` | `Interpolation` | interpolators |
| `insertion.dfy` | `Insertion` | inserters |

Code that updates things in place is modelled as methods with loops or `modifies` clauses,
each proved against a function:

- `Shapes.CheckShape`;
- `GhostCells.SetValid`;
- `Registry.ClassRegistry`;
- `Normalize.NormalizePointInPlace`, and `Normalize.NormalizePointArray` with
  `Normalize.NormalizeColumn` on an `array2<real>`;
- `Integration.Integrator`;
- the `Accumulate*` loops of the interpolators;
- `Insertion.Insert1`, `Insert2`, `Insert3` and `Insert`, in place on an `array<real>`.

## Model

| member | source | states |
|---|---|---|
| Shapes.CheckShape | pde/grids/base.py:58-73 | succeeds exactly when the entries (a single number counts as one entry) are non-empty and all whole numbers >= 1; then the same number of axes with the same values, else ValueError |
| Shapes.DiscretizeInterval | pde/grids/base.py:76-101 | a ZeroDivisionError exactly when `num == 0`; otherwise `num` centres (none for negative `num`) |
| Shapes.DiscretizeTiles | pde/grids/base.py:100-101 | the `num` cells of width `dx` exactly cover `[x_min, x_max]` |
| Shapes.DiscretizeEnds | pde/grids/base.py:100-101 | the first centre is `x_min + dx/2`, the last `x_max - dx/2` |
| Shapes.DiscretizeIncreasing | pde/grids/base.py:100-101 | neighbouring centres are `dx > 0` apart and centres strictly increase when `x_min < x_max` |
| Shapes.DiscretizeInside | pde/grids/base.py:100-101 | every centre lies strictly inside the interval |
| Grids.Eq | pde/grids/base.py:303-310 | NotImplemented exactly when `other` is not an instance of `self`'s class |
| Grids.EqReflexive | pde/grids/base.py:303-310 | every grid equals itself |
| Grids.EqIsCompatibleAndPeriodic | pde/grids/base.py:303-341 | within one class, equality is symmetric and is compatibility plus equal periodicity |
| Grids.EqIffSameCacheKey | pde/grids/base.py:303-321 | within one class, grids are equal exactly when their cache keys agree |
| Grids.SubclassEqualButDifferentKey | pde/grids/base.py:303-321 | a subclass grid with the same shape, bounds and periodicity compares equal to a base-class grid but has a different cache key |
| Grids.CompatibleWith | pde/grids/base.py:337-341 | the same class, shape and bounds; compatible grids are comparable by `__eq__` and equal exactly when their periodicity agrees |
| Grids.CacheKeyOf | pde/grids/base.py:312-321 | the tuple `_cache_hash` hashes: class name, shape, bounds and periodicity |
| Grids.NumbaType | pde/grids/base.py:356-359 | the string `f8[` followed by one `:` per axis, joined by `, `, and `]` |
| Grids.NumbaTypeDimensions | pde/grids/base.py:356-359 | the signature is `f8[...]` with one `:` per axis and length `3n + 2` |
| Grids.IterBoundaries | pde/grids/base.py:397-405 | yields `2 * num_axes` pairs |
| Grids.IterBoundariesEachOnce | pde/grids/base.py:397-405 | every (axis, side) pair appears exactly once, the upper side first, with axes in range |
| Grids.FirstIndex | pde/grids/base.py:207-210 | `list.index`: found exactly when present, at the first occurrence |
| Grids.GetAxisIndex | pde/grids/base.py:191-214 | an integer is returned as is; a name gives its first position among the axes (symmetric axes included when allowed) or IndexError; anything else gives IndexError |
| Grids.AxisIndexSymmetric | pde/grids/base.py:191-214 | a discretised axis resolves the same with or without symmetric axes; a symmetric-only name resolves only when they are allowed, past the discretised axes |
| GhostCells.ShapeFull | pde/grids/base.py:226-229 | one more cell on each side of every axis |
| GhostCells.IdxValid | pde/grids/base.py:231-234 | one slice per axis, `slice(1, s + 1)` for an axis of `s` cells |
| GhostCells.IdxValidDropsOneGhostEachSide | pde/grids/base.py:231-234 | the valid slices skip exactly one ghost cell at each end of every axis |
| GhostCells.ValidFullRoundTrip | pde/grids/base.py:226-234 | a valid cell maps into the interior of the full array and back to itself |
| GhostCells.FullValidRoundTrip | pde/grids/base.py:226-234 | an interior cell of the full array maps to a valid cell and back to itself |
| GhostCells.ValidToFullInjective | pde/grids/base.py:226-234 | distinct valid cells have distinct positions in the full array |
| GhostCells.GetValid | pde/grids/base.py:236-252 | NotImplementedError exactly beyond three axes; otherwise one value per valid cell |
| GhostCells.SetValid | pde/grids/base.py:254-271 | NotImplementedError beyond three axes with the array untouched; otherwise the array becomes `WithValid` of its old contents |
| GhostCells.WithValidAtValid | pde/grids/base.py:254-271 | after setting, every valid cell holds the given value |
| GhostCells.GetValidOfWithValid | pde/grids/base.py:236-271 | reading back what was set gives the value |
| GhostCells.WithValidOfGetValid | pde/grids/base.py:236-271 | writing back what was read changes nothing |
| Registry.ChainOperators | pde/grids/base.py:609-616 | a name is listed exactly when some table of the chain holds it |
| Registry.Lookup | pde/grids/base.py:618-644 | no result only when no table of the chain holds the name |
| Registry.LookupFirstMatch | pde/grids/base.py:618-644 | the entry of the first (most derived) table holding the name is returned |
| Registry.LookupResolvesOperators | pde/grids/base.py:609-644 | a name resolves exactly when `operators` lists it |
| Registry.OperatorInfoOf | pde/grids/base.py:618-644 | an OperatorInfo is returned unchanged; an error is always a ValueError naming an unknown name |
| Registry.OperatorInfoOfName | pde/grids/base.py:618-644 | a name resolves exactly when listed, to its most derived definition |
| Registry.WithOperator | pde/grids/base.py:595-599 | the written class's table maps the name to the new entry; every other table and every other name stays |
| Registry.WithoutOperator | tests/grids/test_generic_grids.py:163 | deleting removes the name from one table and changes nothing else |
| Registry.RegisterThenDeleteRestores | tests/grids/test_generic_grids.py:161-163 | registering a fresh name and deleting it restores every table |
| Registry.RegisterOperators | pde/grids/base.py:595-616 | a registration adds the name to `operators` of exactly the classes whose resolution order holds the written class |
| Registry.RegisterOnOwnClassResolves | pde/grids/base.py:595-644 | after registering on a grid's own class, the name resolves to the new entry |
| Registry.ClassRegistry.constructor | pde/grids/base.py:122-126 | only `GridBase`, with an empty table and no subclasses |
| Registry.ClassRegistry.DeclareSubclass | pde/grids/base.py:154-158 | a new class gets a fresh empty table and is recorded under its name; nothing else changes |
| Registry.ClassRegistry.Register | pde/grids/base.py:557-607 | only the calling class's table changes, by `WithOperator` |
| Registry.ClassRegistry.Delete | tests/grids/test_generic_grids.py:163 | KeyError with the tables untouched when the class's own table lacks the name, else `WithoutOperator` |
| Registry.ClassRegistry.RegisteredOperators | pde/grids/base.py:1427-1437 | exactly the recorded classes whose name does not end in "Base" and that are not deprecated, each with its `operators` |
| Normalize.PyMod | pde/grids/base.py:538-553 | Python's float `%`: the result lies in `[0, m)` and differs from the argument by a whole number of `m` |
| Normalize.NormalizeCoord | pde/grids/base.py:538-553 | one coordinate: on a periodic axis `(x - xmin) % L + xmin`; otherwise, when reflecting, `xmin + abs((x - xmax) % 2L - L)`; otherwise `x` unchanged (`L` the axis length, `%` Python's) |
| Normalize.NormalizeCoordRange | pde/grids/base.py:538-553 | a periodic coordinate lands in `[xmin, xmax)`, a reflected one in `[xmin, xmax]`, others are unchanged |
| Normalize.NormalizeCoordInside | pde/grids/base.py:538-553 | coordinates already in the target range are unchanged |
| Normalize.NormalizeCoordIdempotent | pde/grids/base.py:538-553 | normalising twice equals normalising once |
| Normalize.NormalizePeriodicShift | pde/grids/base.py:538-553 | periodic coordinates a whole number of periods apart normalise alike |
| Normalize.NormalizeReflectUpper | pde/grids/base.py:538-553 | a reflected coordinate and its mirror image in the upper bound normalise alike |
| Normalize.NormalizeReflectLower | pde/grids/base.py:538-553 | a reflected coordinate and its mirror image in the lower bound normalise alike |
| Normalize.NormalizeReflectPeriod | pde/grids/base.py:538-553 | reflected coordinates two axis lengths apart normalise alike |
| Normalize.NormalizePoint | pde/grids/base.py:497-555 | on a copy of the argument (a list, a scalar or an array of another type): DimensionError exactly for a scalar on a multi-axis grid or a non-empty last axis of the wrong length; an empty array gives no points |
| Normalize.NormalizePointArray | pde/grids/base.py:517-555 | on an array of doubles the result equals `NormalizePoint`; on a grid of several axes the caller's array now holds the normalised points, while on one axis, for an empty array or on a DimensionError it keeps its values |
| Normalize.NormalizeColumn | pde/grids/base.py:548-553 | `point[..., i] = ...` rewrites column `i` of every point with `NormalizeCoord` and leaves the other columns alone |
| Normalize.NormalizePointInDomain | pde/grids/base.py:497-555 | every coordinate of a normalised point lies in the range of its axis |
| Normalize.NormalizePointIdempotent | pde/grids/base.py:497-555 | normalising a normalised point changes nothing |
| Normalize.NormalizePointInPlace | pde/grids/base.py:852-892 | the loop rewrites the point in place into its normalised coordinates |
| Normalize.NormalizeRowIsNormalizePoint | pde/grids/base.py:497-555 | the compiled normaliser agrees with `normalize_point` on one point |
| Integration.CellVolumes | pde/grids/base.py:371-375 | the intended `cell_volumes`: one volume per cell, the product of the cell's per-axis factors |
| Integration.CellVolumesAt | pde/grids/base.py:371-375 | the intended volume of a cell is the product of its per-axis factors; on three or more axes this is what the source computes only under `OuterCellVolumesAgree` |
| Integration.OuterCellVolumes | pde/grids/base.py:371-375 | `cell_volumes` as written: the flattened `numpy.outer` reduction broadcast to the grid's shape; ValueError exactly when it does not line up with the last two axes |
| Integration.OuterCellVolumesAt | pde/grids/base.py:371-375 | a cell receives the reduction's entry in the row of its second-to-last index and the column of its last index |
| Integration.OuterCellVolumesAgree | pde/grids/base.py:371-375 | with per-cell data on the last two axes only (every grid of one or two axes), the reduction as written gives the product volumes |
| Integration.OuterCellVolumesMixesAxes | pde/grids/base.py:371-375 | on a 2x2x3 grid with per-cell data on axis 0, cell (0, 1, 0) gets volume 2 instead of 1 |
| Integration.OuterCellVolumesRefuses | pde/grids/base.py:371-375 | on a 2x3x4 grid with the same data `numpy.broadcast_to` raises a ValueError |
| Integration.CellVolumesPositive | pde/grids/base.py:371-375 | every cell volume is positive |
| Integration.UniformCellVolumes | pde/grids/base.py:377-380 | true exactly when every entry of the volume data is a single number (`ndim == 0`) |
| Integration.UniformCellVolumesConstant | pde/grids/base.py:377-380 | with uniform data every cell has volume `prod(cell_volume_data)` |
| Integration.CellVolumeCompiled | pde/grids/base.py:895-930 | the compiled lookup: the product of the data on a uniform grid, otherwise the stored volume of cell `i`; always positive |
| Integration.CellVolumeCompiledIsCellVolume | pde/grids/base.py:895-930 | both branches of the compiled lookup return the volume of the cell |
| Integration.VolumeList | pde/grids/base.py:816-829 | one entry per axis: the axis's own volume data when its number is listed, 1 otherwise |
| Integration.Integrate | pde/grids/base.py:800-849 | a ValueError exactly when numpy refuses the listed axes |
| Integration.IntegrateAllAxesListed | pde/grids/base.py:800-849 | listing every axis gives the same integral as omitting `axes` |
| Integration.IntegrateNormalizedAnyListing | pde/grids/base.py:800-849 | with negative axes read as numpy reads them, any listing of all axes gives the whole integral |
| Integration.IntegrateAgreesWithoutNegativeAxes | pde/grids/base.py:800-849 | with non-negative axis numbers the code as written agrees with the corrected volume list |
| Integration.IntegrateOne | pde/grids/base.py:800-849 | integrating 1 gives the total volume |
| Integration.UniformIntegral | pde/grids/base.py:1401-1409 | on a uniform grid, cell volume times the plain sum equals the volume-weighted sum |
| Integration.Integrator | pde/grids/base.py:1390-1424 | both branches return the volume-weighted sum, which equals `integrate` over the whole grid |
| Interpolation.DivMod1 | pde/grids/base.py:976-979 | `divmod(t, 1.0)`: the floor and a fraction in `[0, 1)` that add up to `t` |
| Interpolation.PlaceOf | pde/grids/base.py:1033-1040 | a coordinate is a valid cell, one of the two ghost cells of a non-periodic axis, or outside exactly beyond them |
| Interpolation.WrapMod | pde/grids/base.py:981-983 | the wrapped index is Python's `%` |
| Interpolation.Interpolate1 | pde/grids/base.py:961-994 | the one-axis interpolator at a point: only DomainError can arise, and only without `fill`; on a periodic axis there is always a value |
| Interpolation.Interpolate1Domain | pde/grids/base.py:961-994 | off a periodic axis: `fill` or DomainError exactly beyond one ghost cell; otherwise a value between the two entries read, both inside the full data |
| Interpolation.Interpolate1Periodic | pde/grids/base.py:961-994 | on a periodic axis both indices wrap into the valid cells and the value lies between them |
| Interpolation.Interpolate1AtCentre | pde/grids/base.py:961-994 | at a cell centre the cell's value is returned |
| Interpolation.Interpolate1Shift | pde/grids/base.py:961-994 | on a periodic axis points a whole number of periods apart interpolate alike |
| Interpolation.Accumulate2 | pde/grids/base.py:1030-1054 | the loops sum the weighted values and weights of the used corners |
| Interpolation.Interpolate2 | pde/grids/base.py:1004-1061 | the two-axis interpolator computes `Interpolation2` |
| Interpolation.Interpolation2AllUsed | pde/grids/base.py:1004-1061 | with all four corners used the weights sum to 1 and the result is the weighted sum |
| Interpolation.Interpolation2NoCorner | pde/grids/base.py:1055-1059 | with no corner used the result is `fill` or DomainError |
| Interpolation.Interpolation2AtCentre | pde/grids/base.py:1004-1061 | at a cell centre the cell's value is returned |
| Interpolation.AccumulateColumn3 | pde/grids/base.py:1123-1136 | the innermost loop adds the column's weighted values and weights |
| Interpolation.Accumulate3AsWritten | pde/grids/base.py:1100-1136 | the loops as written sum over the corners they reach |
| Interpolation.Interpolate3AsWritten | pde/grids/base.py:1071-1143 | the three-axis interpolator as written computes `Interpolation3` under the as-written rule |
| Interpolation.Accumulate3 | pde/grids/base.py:1100-1136 | the loops with the flag decided afresh per `j` sum over the intended corners |
| Interpolation.Interpolate3 | pde/grids/base.py:1071-1143 | the corrected interpolator computes `Interpolation3` under the intended rule |
| Interpolation.Interpolation3AtCentre | pde/grids/base.py:1071-1143 | at a cell centre the three-axis interpolator returns the cell's value, under the rule as written and the intended one alike |
| Interpolation.Used3IntendedAtMostOneBoundary | pde/grids/base.py:1100-1136 | the intended rule uses a corner exactly when no coordinate is outside and at most one is on a boundary |
| Interpolation.Used3AsWrittenDiffers | pde/grids/base.py:1111-1121 | as written, the rule differs only at `j = 1` after y lay on a boundary with z on a boundary |
| Interpolation.Interpolate3SkipsSingleBoundaryCorner | pde/grids/base.py:1111-1131 | a concrete point where the code as written skips a corner on one boundary only |
| Interpolation.Used3IntendedSymmetric | pde/grids/base.py:1100-1136 | the intended rule treats the y and z axes alike |
| Interpolation.InterpolateFull | pde/grids/base.py:932-1150 | dispatches on one, two or three axes, three axes running the loops as written (`Interpolation3` under the as-written rule); NotImplementedError exactly beyond three |
| Insertion.Wrap | pde/grids/base.py:1258-1269 | a periodic coordinate wraps into the axis, a valid one is kept, others have no cell |
| Insertion.HitOf | pde/grids/base.py:1258-1270 | a corner has a cell exactly when every axis has a target; that cell is in the grid and its weight in `[0, 1]` |
| Insertion.Insertion1 | pde/grids/base.py:1165-1221 | on one axis: a DomainError only, or data of the same length |
| Insertion.Plan1 | pde/grids/base.py:1195-1221 | the branches of the one-axis inserter: one or two cells, each inside the axis, or none when both lie outside a non-periodic axis |
| Insertion.Plan1Sound | pde/grids/base.py:1195-1221 | the one-axis inserter raises exactly when both cells lie outside a non-periodic axis; otherwise its weights sum to 1 |
| Insertion.Insertion1Effect | pde/grids/base.py:1165-1221 | on one axis: the error case exactly; otherwise the integral grows by `amount` and only the planned cells change |
| Insertion.Insertion1MatchesCorners | pde/grids/base.py:1165-1290 | the one-axis inserter agrees with the corner scheme of the other inserters except at `c = -1, d = 0` on a non-periodic axis |
| Insertion.Insert1 | pde/grids/base.py:1173-1221 | the method, in place, does what `Insertion1` says, failing before any write |
| Insertion.Deposit1 | pde/grids/base.py:1195-1221 | the five branches of the one-axis inserter deposit the plan, or fail with the data untouched |
| Insertion.Insertion | pde/grids/base.py:1257-1290 | the two- and three-axis inserters: DomainError only when the corners with a cell carry no weight, otherwise data of the same length |
| Insertion.ApplyMass | pde/grids/base.py:1275-1290 | deposits raise the integral by the share of their weights |
| Insertion.InsertionConservesMass | pde/grids/base.py:1223-1381 | when the inserter does not raise, the integral grows by exactly `amount` |
| Insertion.ApplyElsewhere | pde/grids/base.py:1275-1290 | cells outside the corners' cells are unchanged |
| Insertion.InsertionEffect | pde/grids/base.py:1223-1381 | DomainError exactly when the total weight is 0; otherwise mass `+ amount`, and only the at most `2^n` corner cells change |
| Insertion.TotalWeightAtMostOne | pde/grids/base.py:1223-1381 | the total weight lies in `[0, 1]`; it is 1 on a fully periodic grid, which therefore never raises |
| Insertion.PlanWeights2 | pde/grids/base.py:1257-1270 | the four weights sum to at most 1, and exactly 1 when both axes are periodic |
| Insertion.PlanWeights3 | pde/grids/base.py:1329-1352 | the eight weights sum to at most 1, and exactly 1 when every axis is periodic |
| Insertion.TotalWeight2 | pde/grids/base.py:1257-1273 | the first loop pair computes the total weight of the plan |
| Insertion.Deposit2 | pde/grids/base.py:1275-1290 | the second loop pair applies the plan's deposits in place |
| Insertion.Insert2 | pde/grids/base.py:1231-1290 | the two-axis inserter does what `Insertion` says, failing before any write |
| Insertion.TotalWeight3 | pde/grids/base.py:1329-1355 | the first loop nest computes the total weight of the plan |
| Insertion.Deposit3 | pde/grids/base.py:1358-1381 | the second loop nest applies the plan's deposits in place |
| Insertion.DepositAlongY | pde/grids/base.py:1365-1381 | the middle loop adds the deposits of the four corners with one `i` |
| Insertion.DepositAlongZ | pde/grids/base.py:1372-1381 | the innermost loop adds the deposits of one corner column |
| Insertion.Insert3 | pde/grids/base.py:1300-1381 | the three-axis inserter does what `Insertion` says, failing before any write |
| Insertion.Insert | pde/grids/base.py:1152-1388 | dispatches on one, two or three axes; beyond three, NotImplementedError with the data untouched |
| RowMajor.UnflattenFlatten | pde/grids/base.py:1420-1421 | flat addressing is one-to-one: unflattening a flat position gives the multi-index back |
| RowMajor.FlattenInjective | pde/grids/base.py:1420-1421 | distinct multi-indices have distinct flat positions |

## Left out

- JSON state, `from_state`, `copy` and `__deepcopy__`: object plumbing, not grid logic.
- The hash value of `_cache_hash`: the model keeps the key tuple instead.
- numba `jit`, `register_jitable` and the backend and ghost-cell handling of `make_operator`: these depend on the boundary-condition classes, which are not part of this model.
- The abstract geometry that the concrete grids supply (`cell_to_point`, `iter_mirror_points`, `transform`, and so on), plotting and random points: none of it is defined in `GridBase`.
- Floating-point rounding: coordinates, weights and volumes are exact reals.
- Leading tensor axes (`data[..., c]`): scalar fields only.
- Grids.Eq: the classes are a number per class and a resolution order; `isinstance` is membership in the other grid's resolution order.
- Integration.CellVolumesAt: states the intended product volumes. On three or more axes with per-cell data before the last two axes, the reduction as written (`Integration.OuterCellVolumes`) reads that data along the wrong axis or raises a ValueError. `integrate`, `make_cell_volume_compiled`, `make_integrator` and the three-axis inserter are modelled with the intended volumes, so they inherit this difference. Every grid of one or two axes, and every grid whose per-cell data is on the last two axes, is unaffected (`Integration.OuterCellVolumesAgree`).
- Integration.Integrate: the product `data * cell_volumes` broadcasts the reduction against the data. That can succeed on shapes where `broadcast_to` raises, for example an axis of length 1, and this is not modelled.
- Normalize.NormalizePoint: models calls where `numpy.asarray` makes a copy. A caller's array of doubles is rewritten in place on grids of several axes, and `Normalize.NormalizePointArray` models that. Arrays of more than two dimensions are seen with their leading axes flattened into rows.
- Integration.Integrate: only integration over all axes is modelled (`axes` omitted or covering every axis), so the result is a number. Partial integration returns arrays and is left out.
- Registry.ClassRegistry.RegisteredOperators: returns a set of names per class rather than a sorted list.
- Registry: operator factories are numbers. The `make_operator` closure of `register_operator` and the rank arguments are kept as data only.
- Insertion.Insertion1: the one-axis weights are written as hits with a total weight of 1. `Increment(w, 1, amount, vol)` is the source's `w * amount / cell_volume`.
- Insertion.DepositAlongZ: the middle and innermost loops of the three-axis deposit are methods of their own (DepositAlongY, DepositAlongZ), with the same effect as the inline loops.
- `discretize_interval` with `num <= 0`: the code divides by `num` (a ZeroDivisionError for 0) and gives no centres for negative `num`. This model follows the code, not the broader "error for any non-positive count" reading.
- `__eq__` uses `isinstance`, while the cache key uses the class name. So equal grids of a base class and a subclass have different keys (`Grids.SubclassEqualButDifferentKey`). The model follows the code.
- `register_operator` called through an instance writes to the class table; there is no per-instance overlay in the code, and none in the model.

## Findings

| source | as written | input that shows it | evidently intended | confidence | as-written member | corrected member |
|---|---|---|---|---|---|---|
| pde/grids/base.py:1111-1131 | the 3-D interpolator sets `at_boundary = True` when y lies on a boundary and never resets it before the next `j` | non-periodic 2x2x2 grid of unit cells, cell coordinates (0.5, -0.5, -0.5): corner (0, 1, 0) has valid x and y and only z on a boundary, yet it is skipped | a corner is skipped only when two of its coordinates lie on a boundary, as in the two-axis interpolator | not executed | Interpolation.Interpolate3SkipsSingleBoundaryCorner | Interpolation.Interpolate3 |
| pde/grids/base.py:371-375 | `cell_volumes` reduces the per-axis data with `numpy.outer`, which flattens its arguments, and broadcasts the 2-D result against the grid's last two axes | 2x2x3 grid with `cell_volume_data = ([1, 2], 1, 1)`: cell (0, 1, 0) gets volume 2 instead of 1; on a 2x3x4 grid `broadcast_to` raises a ValueError | the volume of a cell is the product of its per-axis factors on any number of axes | not executed | Integration.OuterCellVolumesMixesAxes | Integration.CellVolumesAt |
| pde/grids/base.py:816-828 | `integrate` keeps an axis's volume only if its non-negative number is in `axes`, while numpy's `sum` also accepts negative axis numbers | one-axis grid with one cell of volume 2, `integrate([1.0], axes=-1)`: the result is 1, not 2 | a negatively numbered axis keeps its cell volumes | not executed | Integration.IntegrateNegativeAxisDropsVolume | Integration.IntegrateNormalizedAnyListing |

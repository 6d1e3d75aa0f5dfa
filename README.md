# Parameter bounds for surface-wave inversion, in Dafny

This project models the `Parameter` class of `swipp/parameter.py`. A
`Parameter` holds the search bounds of one physical property (shear-wave
velocity, say) over a stack of layers: for every layer a minimum and maximum
thickness-or-depth (`lay_min`, `lay_max`), a minimum and maximum value
(`par_min`, `par_max`) and a flag saying whether the value may decrease with
depth (`par_rev`).

The model covers:

- the validators `check_layers` and `check_rev`, the validating constructor
  `__init__` and its cross-length check;
- the normalisations shared by the layering schemes: `check_wavelengths`
  (swap a reversed pair with a warning), `check_depth_factor` (clamp to 2
  with a warning) and `min_max_rev` (repeat the value bounds and flag once
  per layer);
- the layering derivations `depth_ftl`, `depth_ln_thickness` (LN and LNI),
  `depth_ln_depth` and `depth_lr` (Layering Ratio after Cox and Teague,
  2016), and the named constructors `from_fx`, `from_ftl`,
  `from_ln_thickness`, `from_ln_depth` and `from_lr` built on them;
- equality `__eq__`.

Modelling choices:

- Numbers are `real`. A raised exception is a `Failure` carrying an `Error`
  value (its exception class is `Error.Class()`). A logged warning is a
  `Warning` value returned beside the result, in the order the source logs
  it, including warnings logged before a later error.
- `check_layers`, `check_rev`, `__eq__` and the loop of `depth_lr` are
  methods with loops, each proved against a specification function.
  `__init__` and the `from_*` constructors are static methods of the class
  `Parameter` that allocate an object and then set its `parValue` and
  `parAddValue` fields in place, as the source does.
- `check_rev` accepts only genuine booleans. Flags are therefore given as
  `Scalar` values (`Bool`, `Int` or `Float`), so that `1` and `0` are
  refused as in the source.
- The cross-length check of `__init__` refuses the lists only when the
  layer count differs from the value count AND from the flag count. The
  model keeps this AND; `SingleMismatchAccepted` shows a single mismatch
  passing.
- The code does not demand at least one layer: five empty lists build a
  parameter (`EmptyAccepted`). The model follows the code here.
- `depth_lr` reads `layer_maxdepth[-2]` and `layer_maxdepth[-3]` after its
  loop. When the loop ran fewer than twice one of these raises `IndexError`
  (`[-2]` first when it never ran); the model returns the `TooFewLayers`
  error, and `LrTooFewLayers` says exactly when.

## Model

| member | source | states |
|---|---|---|
| Checks.FirstDisorder | swipp/parameter.py:45-48 | none exactly when every lower bound is at most its upper bound; otherwise the first index where the lower bound exceeds the upper one |
| Checks.LayersVerdict | swipp/parameter.py:39-50 | succeeds exactly when the pair is ordered and returns it unchanged; a length mismatch names both lists; otherwise the error names the first out-of-order index |
| Checks.CheckLayers | swipp/parameter.py:39-50 | the early-exit scan returns exactly the verdict of `LayersVerdict` |
| Checks.CheckRev | swipp/parameter.py:59-65 | succeeds exactly when every flag is a genuine boolean, returning their values; otherwise the `RevNotBool` error, of class `TypeError` |
| Checks.CheckWavelengths | swipp/parameter.py:126-139 | fails exactly when a wavelength is not positive; otherwise returns the same two wavelengths in ascending order, swapped (with a warning) exactly when given in descending order |
| Checks.CheckDepthFactor | swipp/parameter.py:144-151 | the factor used is at least 2, equals the given one when that is at least 2, and a warning is logged exactly when it is below 2 |
| Checks.MinMaxRev | swipp/parameter.py:154-159 | three lists of `nlayers` entries (none for a negative count), each entry the given scalar |
| Checks.BroadcastVerdict | swipp/parameter.py:154-159 | repeated value bounds are ordered exactly when the scalars are, repeated flags pass exactly when the flag is a boolean, and a reversed pair fails at index 0 |
| Layering.DepthFtl | swipp/parameter.py:179-190 | fails for a non-positive count, then for a non-positive thickness; otherwise `nlayers` layers whose minimum and maximum are both `thickness` |
| Layering.DepthLnThickness | swipp/parameter.py:256-269 | error order (wavelengths, then layer count) with the warnings logged so far; on success `nlayers` layers with minimum a third of the shorter wavelength and maximum the profiling depth shared evenly, or the whole of it for LNI |
| Layering.LnThicknessOrdered | swipp/parameter.py:256-269 | the LN/LNI bounds pass `check_layers` exactly when the thickness floor is at most the per-layer maximum, and otherwise fail at layer 0 |
| Layering.IncreasingWidensThickness | swipp/parameter.py:266-268 | the LNI maximum is at least the LN maximum, equal only for one layer, with the same minima |
| Layering.LnThicknessExample | swipp/parameter.py:264-269 | wavelengths 1 and 30, three layers, factor 2 give minima 1/3 and maxima 5 and no warning |
| Layering.DepthLnDepth | swipp/parameter.py:353-365 | same error order and warnings as LN-thickness; on success every maximum depth is the profiling depth |
| Layering.LnDepthOrdered | swipp/parameter.py:353-365 | LN-depth bounds pass `check_layers` exactly when the thickness floor is at most the profiling depth |
| Layering.LnDepthIsIncreasingThickness | swipp/parameter.py:353-365 | LN-depth gives exactly the bounds and warnings of LNI |
| LayeringRatio.LayerThicknessAtLeast | swipp/parameter.py:449-456 | every geometric layer is at least as thick as the top depth, and every added one at least `lr` times it |
| LayeringRatio.NextThickness | swipp/parameter.py:451-456 | the look-back rule appends exactly the next geometric thickness, the first step included |
| LayeringRatio.GrowthStep | swipp/parameter.py:449-457 | one loop iteration keeps the thicknesses geometric and goes at least `lr` times the top depth deeper |
| LayeringRatio.RemainingDrops | swipp/parameter.py:449-457 | the loop's termination measure is non-negative and drops by at least one per iteration |
| LayeringRatio.NextMaxDepth | swipp/parameter.py:451-456 | the appended maximum depth lies strictly below the last one whenever the last layer has positive thickness |
| LayeringRatio.GrowMaxDepths | swipp/parameter.py:449-457 | the list never shrinks (its prefix, geometric growth and stopping point are stated by `GrowthStopsAtDmax`) |
| LayeringRatio.GrowthStopsAtDmax | swipp/parameter.py:449-457 | the grown list extends its start and stays geometric; its last maximum depth reaches or passes the profiling depth and no earlier one does |
| LayeringRatio.GeometricIncreases | swipp/parameter.py:449-457 | the grown maximum depths strictly increase |
| LayeringRatio.GrowthExample | swipp/parameter.py:445-457 | from a top depth of 1 with ratio 2 the loop produces 1, 3, 7, 15 for a profiling depth in (7, 15] |
| LayeringRatio.CapStack | swipp/parameter.py:463-476 | succeeds exactly when there are at least three maximum depths, failing otherwise with the index error; on success a layer is added exactly when the gap from the second-to-last maximum to the profiling depth exceeds the thickness of the layer above it, and otherwise the last layer is stretched (the layer count stays), the second-to-last maximum is the profiling depth and the half-space runs from it to one metre deeper |
| LayeringRatio.LrLayering | swipp/parameter.py:445-477 | fails only with the index error; on success equal-length lists of at least three layers |
| LayeringRatio.StackedLayering | swipp/parameter.py:445-477 | closing the stack built by the growth loop, with each minimum the previous maximum, is the LR layering |
| LayeringRatio.ShortGrowth | swipp/parameter.py:449-457 | the loop stops with fewer than three maximum depths exactly when the top depth times `1 + lr` reaches the profiling depth |
| LayeringRatio.LrDerivation | swipp/parameter.py:436-477 | error order (wavelengths, then ratio at most 1) with the warnings logged so far; otherwise both warnings as logged and the LR layering of the shorter wavelength down to the profiling depth |
| LayeringRatio.ClosedIsOrdered | swipp/parameter.py:463-477 | a closed stack has every minimum at most its maximum |
| LayeringRatio.CapCloses | swipp/parameter.py:463-477 | both closing branches turn a grown stack into a closed one: top layer from a third to a half of the shorter wavelength, each layer starting at the previous maximum, strictly increasing maxima, second-to-last maximum at the profiling depth, half-space from it to one metre deeper |
| LayeringRatio.CapKeepsUpperLayers | swipp/parameter.py:463-476 | neither closing branch changes a layer above the last two |
| LayeringRatio.LrShape | swipp/parameter.py:445-477 | successful LR bounds form a closed stack and pass `check_layers` |
| LayeringRatio.LrThicknesses | swipp/parameter.py:445-477 | in successful LR bounds every layer above the last two has thickness `lr^i` times half the shorter wavelength |
| LayeringRatio.LrTooFewLayers | swipp/parameter.py:449-463 | LR fails, with the index error, exactly when the top layer times `1 + lr` already reaches the profiling depth |
| LayeringRatio.LrStretchExample | swipp/parameter.py:470-476 | wavelengths 2 and 20, ratio 2: the second-to-last layer is stretched to 10 and the half-space runs 10 to 11 |
| LayeringRatio.LrHalfSpaceExample | swipp/parameter.py:463-468 | wavelengths 2 and 24, ratio 2: the last layer is cut at 12 and a half-space from 12 to 13 is added |
| LayeringRatio.LrTooShallowExample | swipp/parameter.py:449-463 | wavelengths 2 and 4, ratio 2: the index error |
| LayeringRatio.StackLayers | swipp/parameter.py:445-457 | the growth loop returns the grown maximum depths, each minimum depth being the previous maximum |
| LayeringRatio.CapLayers | swipp/parameter.py:463-476 | the in-place overwrites give exactly the closing step's bounds, or the index error |
| LayeringRatio.DepthLr | swipp/parameter.py:436-477 | the imperative derivation returns exactly `LrDerivation` |
| Parameters.Construction | swipp/parameter.py:81-92 | succeeds exactly when both pairs are ordered, every flag is a boolean and the lengths pass the cross-length check; each failure is the first check that fails, in source order |
| Parameters.SingleMismatchAccepted | swipp/parameter.py:90-92 | three layers with two value bounds and three flags are accepted |
| Parameters.EmptyAccepted | swipp/parameter.py:81-92 | five empty lists are accepted |
| Parameters.Parameter.constructor | swipp/parameter.py:81-92 | accepts only lists whose bound pairs are ordered and whose lengths pass the cross-length check; the new object is valid and holds the scheme and lists, with value and extra setting 0 |
| Parameters.Parameter.Create | swipp/parameter.py:81-92 | fails with exactly the error `Construction` gives; on success a fresh valid object holding the validated lists, value 0 and extra setting 0 |
| Parameters.Parameter.Layered | swipp/parameter.py:220-223 | value bounds and flag repeated once per layer, then the validating constructor: succeeds exactly when the layer bounds and the value bounds are ordered and the flag is a boolean, failing with the first of these in that order; the lists stored are the layer bounds and the repeated scalars |
| Parameters.Parameter.FromFx | swipp/parameter.py:108-114 | succeeds exactly for a positive value; one layer with extent 1824 to 1883, both value bounds the value, no reversal, and the value recorded |
| Parameters.Parameter.FromFtl | swipp/parameter.py:219-227 | succeeds exactly for a positive count and thickness, ordered value bounds and a boolean flag; errors in source order; the lists, scheme, count and thickness recorded |
| Parameters.Parameter.FromLnThickness | swipp/parameter.py:307-324 | the increasing-factor error first (LNI only), then the derivation's errors and warnings; then a thickness floor above the maximum fails at `lay_min`/`lay_max` index 0, reversed value bounds at `par_min`/`par_max` index 0, and a non-boolean flag with `RevNotBool`; succeeds exactly when the derived layers and the value bounds are ordered and the flag is a boolean; LNI or LN-thickness recorded with the count and the factor or 0 |
| Parameters.Parameter.FromLnDepth | swipp/parameter.py:395-404 | the derivation's errors and warnings; then a thickness floor above the profiling depth fails at `lay_min`/`lay_max` index 0, reversed value bounds at `par_min`/`par_max` index 0, and a non-boolean flag with `RevNotBool`; succeeds exactly when the thickness floor is at most the profiling depth, the value bounds are ordered and the flag is a boolean; records the count and `"depth"` |
| Parameters.LrDepthsOrdered | swipp/parameter.py:512-515 | successful LR bounds have at least three layers and pass `check_layers` |
| Parameters.Parameter.FromLr | swipp/parameter.py:512-517 | the derivation's errors and warnings; then reversed value bounds fail at `par_min`/`par_max` index 0 and a non-boolean flag with `RevNotBool`; otherwise succeeds exactly when the value bounds are ordered and the flag is a boolean (the LR depths never fail), with one value bound per derived layer and the ratio recorded |
| Parameters.SameList | swipp/parameter.py:524-530 | the early-exit comparison answers exactly whether two lists are equal |
| Parameters.Parameter.Equals | swipp/parameter.py:519-531 | true exactly when all five per-layer lists are equal; scheme, value and extra setting are ignored |

## Left out

- `plot` and `make_rectangle` draw with matplotlib and promise nothing about the parameter; they are not modelled.
- Logging: warnings are returned as values, not written to a log.
- Python's run-time type checks (`int`/`float` for numbers, `int` for layer counts) are expressed by the Dafny signatures, so their `TypeError` paths cannot arise. Only the flags keep a type test, through `Scalar`.
- Floating-point rounding: all arithmetic is exact over `real`, so equalities such as the even share `dmax / nlayers` hold exactly here but only approximately in the source.
- Error messages are not modelled; an error records its kind and, for `check_layers`, the two list names and the index.
- Default arguments (`depth_factor=2`, `increasing=False`, `increasing_factor=1.2`, `par_rev=False`) are not modelled; every caller passes every argument.
- Aliasing: the source stores the very lists it was given; the model stores their values.
- Parameters.Parameter.Equals: compares with another `Parameter` only; the source's behaviour for an object of another type is not modelled.
- Parameters.Parameter.FromFx: the value is recorded as a `real`; the source keeps an `int` when given one.

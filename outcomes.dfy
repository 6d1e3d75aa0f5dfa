/**
 * Shared result types of the parameterisation core: the errors a
 * constructor or derivation raises, the warnings it logs instead of
 * failing, and the pair of per-layer bound lists every derivation yields.
 */
module Outcomes {

  datatype Option<+T> = None | Some(value: T)

  /** Success or the error the source raises; usable with `:-`. */
  datatype Result<+T> = Success(value: T) | Failure(error: Error) {
    predicate IsFailure() {
      Failure?
    }

    function PropagateFailure<U>(): Result<U>
      requires Failure?
    {
      Failure(error)
    }

    function Extract(): T
      requires Success?
    {
      value
    }
  }

  /** The exception class the source raises for an error. */
  datatype ExceptionClass = ValueError | TypeError | IndexError

  /** Every way construction or derivation can fail. */
  datatype Error =
    | LengthMismatch(lowerName: string, upperName: string)
      // two paired bound lists differ in length
    | OutOfOrder(lowerName: string, upperName: string, index: nat)
      // the first index where the lower bound exceeds the upper bound
    | RevNotBool
      // a reversal flag whose type is not exactly bool
    | InconsistentLengths
      // layer count of the extent bounds disagrees with the other lists
    | NonPositiveValue
      // FX value not positive
    | NonPositiveWavelength
    | NonPositiveLayers
    | NonPositiveThickness
    | RatioNotAboveOne
      // layering ratio <= 1
    | IncreasingFactorNotAboveOne
    | TooFewLayers
      // the LR loop ran fewer than twice, so `layer_maxdepth[-2]` (no iteration) or `layer_maxdepth[-3]` (one) does not exist
  {
    function Class(): ExceptionClass {
      match this
      case RevNotBool => TypeError
      case TooFewLayers => IndexError
      case _ => ValueError
    }
  }

  /** A non-fatal input correction, logged as a warning by the source. */
  datatype Warning = WavelengthsSwapped | DepthFactorClamped

  /** Per-layer minimum and maximum thickness-or-depth (or value) lists. */
  datatype Bounds = Bounds(lower: seq<real>, upper: seq<real>)

  /** What a layering derivation hands back: its bounds or error, and the
      warnings it logged on the way (also those logged before a failure). */
  datatype Derivation = Derivation(bounds: Result<Bounds>, warnings: seq<Warning>)

  function Min(a: real, b: real): real { if a <= b then a else b }

  function Max(a: real, b: real): real { if a <= b then b else a }
}

/**
 * The fixed-count layering derivations: Fixed Thickness Layering (FTL) and
 * Layering by Number in thickness form (LN-thickness, and LNI when layers
 * may thicken) and in depth form (LN-depth).
 */
module Layering {
  import opened Outcomes
  import opened Checks

  /** The warning check_wavelengths logs for this pair, if any. */
  function SwapWarnings(wmin: real, wmax: real): seq<Warning> {
    if wmin > wmax then [WavelengthsSwapped] else []
  }

  /** The warning check_depth_factor logs for this factor, if any. */
  function ClampWarnings(depthFactor: real): seq<Warning> {
    if depthFactor < 2.0 then [DepthFactorClamped] else []
  }

  /** Estimated maximum depth of profiling: the longer wavelength over the
      depth factor, the factor being at least 2. */
  function DepthOfInvestigation(wmin: real, wmax: real, depthFactor: real): real {
    Max(wmin, wmax) / Max(depthFactor, 2.0)
  }

  /** depth_ftl: `nlayers` layers each exactly `thickness` thick. */
  function DepthFtl(nlayers: int, thickness: real): (r: Result<Bounds>)
    ensures r.Success? <==> nlayers > 0 && thickness > 0.0
    ensures nlayers <= 0 ==> r == Failure(NonPositiveLayers)
    ensures nlayers > 0 && thickness <= 0.0 ==> r == Failure(NonPositiveThickness)
    ensures r.Success? ==>
      && |r.value.lower| == nlayers
      && r.value.upper == r.value.lower
      && (forall i :: 0 <= i < nlayers ==> r.value.lower[i] == thickness)
      && Ordered(r.value.lower, r.value.upper)
  {
    if nlayers <= 0 then Failure(NonPositiveLayers)
    else if thickness <= 0.0 then Failure(NonPositiveThickness)
    else Success(Bounds(seq(nlayers, _ => thickness), seq(nlayers, _ => thickness)))
  }

  /** depth_ln_thickness: every layer at least a third of the shorter
      wavelength thick; at most the profiling depth shared out over the
      layers, or the whole profiling depth when thickness may increase. */
  function DepthLnThickness(wmin: real, wmax: real, nlayers: int, depthFactor: real, increasing: bool)
    : (d: Derivation)
    ensures d.bounds.Success? <==> wmin > 0.0 && wmax > 0.0 && nlayers >= 1
    ensures !(wmin > 0.0 && wmax > 0.0) ==> d == Derivation(Failure(NonPositiveWavelength), [])
    ensures wmin > 0.0 && wmax > 0.0 && nlayers < 1 ==>
      d == Derivation(Failure(NonPositiveLayers), SwapWarnings(wmin, wmax))
    ensures d.bounds.Success? ==>
      && d.warnings == SwapWarnings(wmin, wmax) + ClampWarnings(depthFactor)
      && |d.bounds.value.lower| == |d.bounds.value.upper| == nlayers
      && forall i :: 0 <= i < nlayers ==>
           && d.bounds.value.lower[i] == Min(wmin, wmax) / 3.0
           && d.bounds.value.upper[i] ==
                if increasing then DepthOfInvestigation(wmin, wmax, depthFactor)
                else DepthOfInvestigation(wmin, wmax, depthFactor) / nlayers as real
  {
    match CheckWavelengths(wmin, wmax)
    case Failure(e) => Derivation(Failure(e), [])
    case Success(w) =>
      var swapped := if w.swapped then [WavelengthsSwapped] else [];
      if nlayers < 1 then Derivation(Failure(NonPositiveLayers), swapped)
      else
        var df := CheckDepthFactor(depthFactor);
        var minThickness := w.wmin / 3.0;
        var dmax := w.wmax / df.factor;
        var maxThickness := if increasing then dmax else dmax / nlayers as real;
        Derivation(
          Success(Bounds(seq(nlayers, _ => minThickness), seq(nlayers, _ => maxThickness))),
          swapped + if df.warned then [DepthFactorClamped] else [])
  }

  /** depth_ln_depth: the same thickness floor, with the profiling depth
      itself as every layer's maximum depth. */
  function DepthLnDepth(wmin: real, wmax: real, nlayers: int, depthFactor: real): (d: Derivation)
    ensures d.bounds.Success? <==> wmin > 0.0 && wmax > 0.0 && nlayers >= 1
    ensures !(wmin > 0.0 && wmax > 0.0) ==> d == Derivation(Failure(NonPositiveWavelength), [])
    ensures wmin > 0.0 && wmax > 0.0 && nlayers < 1 ==>
      d == Derivation(Failure(NonPositiveLayers), SwapWarnings(wmin, wmax))
    ensures d.bounds.Success? ==>
      && d.warnings == SwapWarnings(wmin, wmax) + ClampWarnings(depthFactor)
      && |d.bounds.value.lower| == |d.bounds.value.upper| == nlayers
      && forall i :: 0 <= i < nlayers ==>
           && d.bounds.value.lower[i] == Min(wmin, wmax) / 3.0
           && d.bounds.value.upper[i] == DepthOfInvestigation(wmin, wmax, depthFactor)
  {
    match CheckWavelengths(wmin, wmax)
    case Failure(e) => Derivation(Failure(e), [])
    case Success(w) =>
      var swapped := if w.swapped then [WavelengthsSwapped] else [];
      if nlayers < 1 then Derivation(Failure(NonPositiveLayers), swapped)
      else
        var df := CheckDepthFactor(depthFactor);
        var minThickness := w.wmin / 3.0;
        var dmax := w.wmax / df.factor;
        Derivation(
          Success(Bounds(seq(nlayers, _ => minThickness), seq(nlayers, _ => dmax))),
          swapped + if df.warned then [DepthFactorClamped] else [])
  }

  /** LN-thickness bounds pass check_layers exactly when the thickness
      floor does not exceed the per-layer maximum; otherwise
      from_ln_thickness fails at layer 0. */
  lemma LnThicknessOrdered(wmin: real, wmax: real, nlayers: int, depthFactor: real, increasing: bool)
    requires wmin > 0.0 && wmax > 0.0 && nlayers >= 1
    ensures var b := DepthLnThickness(wmin, wmax, nlayers, depthFactor, increasing).bounds.value;
      var dmax := DepthOfInvestigation(wmin, wmax, depthFactor);
      && (Ordered(b.lower, b.upper) <==>
            Min(wmin, wmax) / 3.0 <= if increasing then dmax else dmax / nlayers as real)
      && (!Ordered(b.lower, b.upper) ==>
            LayersVerdict("lay_min", b.lower, "lay_max", b.upper) == Failure(OutOfOrder("lay_min", "lay_max", 0)))
  {
    var b := DepthLnThickness(wmin, wmax, nlayers, depthFactor, increasing).bounds.value;
    assert b.lower[0] == Min(wmin, wmax) / 3.0;
  }

  /** LN-depth bounds pass check_layers exactly when the thickness floor
      does not exceed the profiling depth. */
  lemma LnDepthOrdered(wmin: real, wmax: real, nlayers: int, depthFactor: real)
    requires wmin > 0.0 && wmax > 0.0 && nlayers >= 1
    ensures var b := DepthLnDepth(wmin, wmax, nlayers, depthFactor).bounds.value;
      && (Ordered(b.lower, b.upper) <==> Min(wmin, wmax) / 3.0 <= DepthOfInvestigation(wmin, wmax, depthFactor))
      && (!Ordered(b.lower, b.upper) ==>
            LayersVerdict("lay_min", b.lower, "lay_max", b.upper) == Failure(OutOfOrder("lay_min", "lay_max", 0)))
  {
    var b := DepthLnDepth(wmin, wmax, nlayers, depthFactor).bounds.value;
    assert b.lower[0] == Min(wmin, wmax) / 3.0;
  }

  /** LN-depth yields exactly the bounds (and warnings) of LNI: both cap
      every layer at the profiling depth. */
  lemma LnDepthIsIncreasingThickness(wmin: real, wmax: real, nlayers: int, depthFactor: real)
    ensures DepthLnDepth(wmin, wmax, nlayers, depthFactor) == DepthLnThickness(wmin, wmax, nlayers, depthFactor, true)
  {
    var d1 := DepthLnDepth(wmin, wmax, nlayers, depthFactor);
    var d2 := DepthLnThickness(wmin, wmax, nlayers, depthFactor, true);
    if d1.bounds.Success? {
      assert d1.bounds.value.lower == d2.bounds.value.lower;
      assert d1.bounds.value.upper == d2.bounds.value.upper;
    }
  }

  /** Allowing layers to thicken never narrows a layer's range: the LNI
      maximum is at least the LN-thickness maximum, equal only for a single
      layer. */
  lemma IncreasingWidensThickness(wmin: real, wmax: real, nlayers: int, depthFactor: real, i: int)
    requires wmin > 0.0 && wmax > 0.0 && nlayers >= 1 && 0 <= i < nlayers
    ensures var ln := DepthLnThickness(wmin, wmax, nlayers, depthFactor, false).bounds.value;
      var lni := DepthLnThickness(wmin, wmax, nlayers, depthFactor, true).bounds.value;
      && lni.upper[i] >= ln.upper[i]
      && (lni.upper[i] == ln.upper[i] <==> nlayers == 1)
      && lni.lower == ln.lower
  {
    var ln := DepthLnThickness(wmin, wmax, nlayers, depthFactor, false).bounds.value;
    var lni := DepthLnThickness(wmin, wmax, nlayers, depthFactor, true).bounds.value;
    var dmax := DepthOfInvestigation(wmin, wmax, depthFactor);
    assert ln.upper[i] == dmax / nlayers as real;
    assert lni.upper[i] == dmax;
    EvenShare(dmax, nlayers);
    assert lni.lower == ln.lower;
  }

  /** An even share of a positive depth is smaller than the whole unless
      there is only one share. */
  lemma EvenShare(dmax: real, n: int)
    requires dmax > 0.0 && n >= 1
    ensures dmax / n as real <= dmax
    ensures dmax / n as real == dmax <==> n == 1
  {
    var share := dmax / n as real;
    assert share * n as real == dmax;
    if n > 1 {
      assert dmax - share == share * (n as real - 1.0);
      PositiveProduct(share, n as real - 1.0);
    }
  }

  lemma PositiveProduct(a: real, b: real)
    requires a > 0.0 && b > 0.0
    ensures a * b > 0.0
  {
  }

  /** The worked LN-thickness case: wavelengths 1 and 30, three layers,
      depth factor 2 give floors of 1/3 and maxima of 30/2/3 = 5. */
  lemma LnThicknessExample()
    ensures DepthLnThickness(1.0, 30.0, 3, 2.0, false) ==
      Derivation(Success(Bounds([1.0 / 3.0, 1.0 / 3.0, 1.0 / 3.0], [5.0, 5.0, 5.0])), [])
  {
    var d := DepthLnThickness(1.0, 30.0, 3, 2.0, false);
    assert d.bounds.value.lower == [1.0 / 3.0, 1.0 / 3.0, 1.0 / 3.0];
    assert d.bounds.value.upper == [5.0, 5.0, 5.0];
  }
}

/**
 * Layering Ratio (LR) after Cox and Teague (2016): starting from a thin top
 * layer, each further layer is `lr` times as thick as the one above it,
 * until the profiling depth is reached; the stack is then closed with a
 * nominal one-metre half-space starting exactly at the profiling depth.
 */
module LayeringRatio {
  import opened Outcomes
  import opened Checks
  import opened Layering

  function Last(s: seq<real>): real
    requires |s| >= 1
  {
    s[|s| - 1]
  }

  /** The maximum depth of the layer the growth loop appends after
      `maxDepths`: the previous maximum plus `lr` times the previous
      thickness, where the top layer counts as being as thick as its
      whole maximum depth. */
  function NextMaxDepth(maxDepths: seq<real>, lr: real): (r: real)
    requires |maxDepths| >= 1
    ensures Last(maxDepths) > 0.0 && lr > 0.0 && (|maxDepths| == 1 || maxDepths[|maxDepths| - 2] < Last(maxDepths))
      ==> r > Last(maxDepths)
  {
    var last := Last(maxDepths);
    if |maxDepths| == 1 then last * lr + last
    else (last - maxDepths[|maxDepths| - 2]) * lr + last
  }

  lemma FirstGrowth(m: seq<real>, lr: real, last: real, next: real)
    requires |m| == 1 && last == m[0] && next == last * lr + last
    ensures next == NextMaxDepth(m, lr)
  {
  }

  lemma LaterGrowth(m: seq<real>, lr: real, previous: real, last: real, next: real)
    requires |m| >= 2 && previous == m[|m| - 2] && last == m[|m| - 1]
    requires next == (last - previous) * lr + last
    ensures next == NextMaxDepth(m, lr)
  {
  }

  /** The thickness of layer `k` of an LR stack whose top layer reaches
      down to `m0`: `m0 * lr^k`, the top layer counting as `m0` thick. */
  function LayerThickness(m0: real, lr: real, k: nat): real {
    if k == 0 then m0 else LayerThickness(m0, lr, k - 1) * lr
  }

  lemma {:induction false} LayerThicknessAtLeast(m0: real, lr: real, k: nat)
    requires m0 > 0.0 && lr > 1.0
    ensures LayerThickness(m0, lr, k) >= m0
    ensures k >= 1 ==> LayerThickness(m0, lr, k) >= m0 * lr
  {
    if k >= 1 {
      LayerThicknessAtLeast(m0, lr, k - 1);
      Amplify(LayerThickness(m0, lr, k - 1), m0, lr);
      if k >= 2 {
        Amplify(LayerThickness(m0, lr, k - 1), m0 * lr, lr);
      }
    }
  }

  /** A thickness of at least `step`, scaled by a ratio above one, is still
      at least `step`, and at least `step * lr`. */
  lemma Amplify(t: real, step: real, lr: real)
    requires t >= step > 0.0 && lr > 1.0
    ensures t * lr >= step * lr >= step
  {
  }

  /** The thickness of layer `k` below the top one. */
  function Thickness(maxDepths: seq<real>, k: int): real
    requires 1 <= k < |maxDepths|
  {
    maxDepths[k] - maxDepths[k - 1]
  }

  /** What holds of the maximum depths at every test of the loop: a
      positive top, and every layer below it `lr` times as thick as the
      one above. */
  predicate Geometric(maxDepths: seq<real>, lr: real) {
    && |maxDepths| >= 1 && maxDepths[0] > 0.0 && lr > 1.0
    && forall k :: 1 <= k < |maxDepths| ==> Thickness(maxDepths, k) == LayerThickness(maxDepths[0], lr, k)
  }

  /** What the look-back rule of the loop adds below the deepest layer is
      the next geometric thickness (for the first added layer, `lr` times
      the top layer's depth). */
  lemma NextThickness(maxDepths: seq<real>, lr: real)
    requires Geometric(maxDepths, lr)
    ensures NextMaxDepth(maxDepths, lr) - Last(maxDepths) == LayerThickness(maxDepths[0], lr, |maxDepths|)
  {
    var n := |maxDepths|;
    if n >= 2 {
      assert Thickness(maxDepths, n - 1) == LayerThickness(maxDepths[0], lr, n - 1);
    }
  }

  /** One iteration of the loop keeps the thicknesses geometric and gets at
      least `maxDepths[0] * lr` deeper. */
  lemma GrowthStep(maxDepths: seq<real>, lr: real)
    requires Geometric(maxDepths, lr)
    ensures NextMaxDepth(maxDepths, lr) - Last(maxDepths) >= maxDepths[0] * lr
    ensures Geometric(maxDepths + [NextMaxDepth(maxDepths, lr)], lr)
  {
    NextThickness(maxDepths, lr);
    LayerThicknessAtLeast(maxDepths[0], lr, |maxDepths|);
    var n := |maxDepths|;
    var next := NextMaxDepth(maxDepths, lr);
    var longer := maxDepths + [next];
    forall k | 1 <= k < |longer|
      ensures Thickness(longer, k) == LayerThickness(longer[0], lr, k)
    {
      assert longer[0] == maxDepths[0];
      if k < n {
        assert Thickness(longer, k) == Thickness(maxDepths, k);
      } else {
        assert Thickness(longer, k) == next - Last(maxDepths);
      }
    }
  }

  /** How many top-layer-times-`lr` steps the deepest layer still is above
      `dmax`: the quantity every iteration of the loop lowers by at least
      one. */
  function Remaining(maxDepths: seq<real>, lr: real, dmax: real): real
    requires Geometric(maxDepths, lr)
  {
    (dmax - Last(maxDepths)) / (maxDepths[0] * lr)
  }

  /** An iteration that starts above `dmax` lowers `Remaining` by at least
      one from a value that is not negative. */
  lemma RemainingDrops(maxDepths: seq<real>, lr: real, dmax: real)
    requires Geometric(maxDepths, lr) && Last(maxDepths) < dmax
    ensures Geometric(maxDepths + [NextMaxDepth(maxDepths, lr)], lr)
    ensures Remaining(maxDepths, lr, dmax) >= 0.0
    ensures Remaining(maxDepths + [NextMaxDepth(maxDepths, lr)], lr, dmax) <= Remaining(maxDepths, lr, dmax) - 1.0
  {
    GrowthStep(maxDepths, lr);
    var step := maxDepths[0] * lr;
    var last := Last(maxDepths);
    var next := NextMaxDepth(maxDepths, lr);
    var longer := maxDepths + [next];
    assert longer[0] * lr == step;
    assert Last(longer) == next;
    assert Remaining(longer, lr, dmax) == (dmax - next) / step;
    assert Remaining(maxDepths, lr, dmax) == (dmax - last) / step;
    DivNonNeg(dmax - last, step);
    DivSub(dmax - last, dmax - next, step);
    DivAtLeastOne(next - last, step);
  }

  lemma DivNonNeg(x: real, y: real)
    requires x >= 0.0 && y > 0.0
    ensures x / y >= 0.0
  {
  }

  lemma DivAtLeastOne(x: real, y: real)
    requires x >= y > 0.0
    ensures x / y >= 1.0
  {
  }

  lemma DivSub(x: real, z: real, y: real)
    requires y > 0.0
    ensures x / y - z / y == (x - z) / y
  {
  }

  /** The maximum depths the growth loop of depth_lr produces from
      `maxDepths`: layers are appended while the deepest one is above
      `dmax`. */
  function GrowMaxDepths(maxDepths: seq<real>, lr: real, dmax: real): (r: seq<real>)
    requires Geometric(maxDepths, lr)
    ensures |r| >= |maxDepths|
    decreases Remaining(maxDepths, lr, dmax)
  {
    if Last(maxDepths) < dmax then
      RemainingDrops(maxDepths, lr, dmax);
      GrowMaxDepths(maxDepths + [NextMaxDepth(maxDepths, lr)], lr, dmax)
    else
      maxDepths
  }

  /** Growth only appends, keeps every thickness geometric, stops at the
      first maximum depth at or below `dmax`, and appends no depth that
      already reached it. */
  lemma {:induction false} GrowthStopsAtDmax(maxDepths: seq<real>, lr: real, dmax: real)
    requires Geometric(maxDepths, lr)
    ensures var r := GrowMaxDepths(maxDepths, lr, dmax);
      && r[..|maxDepths|] == maxDepths
      && Geometric(r, lr)
      && Last(r) >= dmax
      && forall k :: |maxDepths| - 1 <= k < |r| - 1 ==> r[k] < dmax
    decreases Remaining(maxDepths, lr, dmax)
  {
    if Last(maxDepths) < dmax {
      RemainingDrops(maxDepths, lr, dmax);
      var longer := maxDepths + [NextMaxDepth(maxDepths, lr)];
      GrowthStopsAtDmax(longer, lr, dmax);
      var r := GrowMaxDepths(longer, lr, dmax);
      assert r[..|maxDepths|] == r[..|longer|][..|maxDepths|] == longer[..|maxDepths|] == maxDepths;
      assert r[|maxDepths| - 1] == Last(maxDepths);
    }
  }

  /** The bounds depth_lr derives from the normalised shorter wavelength,
      the ratio and the profiling depth: grow the stack, then either clamp
      its last layer to `dmax` and add a half-space below it (when the gap
      from the second-to-last layer to `dmax` exceeds that layer's
      thickness), or stretch the second-to-last layer to `dmax` and turn the
      last into the half-space. With fewer than three maximum depths the
      source indexes `layer_maxdepth[-3]` out of range. */
  function LrLayering(wmin: real, lr: real, dmax: real): (r: Result<Bounds>)
    requires wmin > 0.0 && lr > 1.0
    ensures r.Failure? ==> r.error == TooFewLayers
    ensures r.Success? ==> |r.value.lower| == |r.value.upper| >= 3
  {
    var maxDepths := GrowMaxDepths([wmin / 2.0], lr, dmax);
    CapStack([wmin / 3.0] + maxDepths[..|maxDepths| - 1], maxDepths, dmax)
  }

  /** The closing step of depth_lr on the grown depth lists. */
  function CapStack(minDepths: seq<real>, maxDepths: seq<real>, dmax: real): (r: Result<Bounds>)
    requires |minDepths| == |maxDepths|
    ensures r.Success? <==> |maxDepths| >= 3
    ensures r.Failure? ==> r.error == TooFewLayers
    ensures r.Success? ==>
      && |r.value.lower| == |r.value.upper| >= |maxDepths|
      && r.value.upper[|r.value.upper| - 2] == dmax
      && r.value.lower[|r.value.lower| - 1] == dmax && r.value.upper[|r.value.upper| - 1] == dmax + 1.0
    // a layer is added exactly when the gap below the second-to-last maximum
    // exceeds the thickness of the layer above it; otherwise the last is stretched
    ensures r.Success? ==>
      && |r.value.upper| <= |maxDepths| + 1
      && (|r.value.upper| == |maxDepths| + 1 <==>
            dmax - maxDepths[|maxDepths| - 2] > maxDepths[|maxDepths| - 2] - maxDepths[|maxDepths| - 3])
  {
    var n := |maxDepths|;
    if n < 3 then Failure(TooFewLayers)
    else if dmax - maxDepths[n - 2] > maxDepths[n - 2] - maxDepths[n - 3] then
      Success(Bounds(minDepths + [dmax], maxDepths[n - 1 := dmax] + [dmax + 1.0]))
    else
      Success(Bounds(minDepths[n - 1 := dmax], maxDepths[n - 2 := dmax][n - 1 := dmax + 1.0]))
  }

  /** depth_lr: wavelength checks, the ratio check, the depth-factor clamp,
      then the layering itself on the normalised wavelengths. */
  function LrDerivation(wmin: real, wmax: real, lr: real, depthFactor: real): (d: Derivation)
    ensures !(wmin > 0.0 && wmax > 0.0) ==> d == Derivation(Failure(NonPositiveWavelength), [])
    ensures wmin > 0.0 && wmax > 0.0 && lr <= 1.0 ==>
      d == Derivation(Failure(RatioNotAboveOne), SwapWarnings(wmin, wmax))
    ensures wmin > 0.0 && wmax > 0.0 && lr > 1.0 ==>
      && d.warnings == SwapWarnings(wmin, wmax) + ClampWarnings(depthFactor)
      && d.bounds == LrLayering(Min(wmin, wmax), lr, DepthOfInvestigation(wmin, wmax, depthFactor))
  {
    match CheckWavelengths(wmin, wmax)
    case Failure(e) => Derivation(Failure(e), [])
    case Success(w) =>
      var swapped := if w.swapped then [WavelengthsSwapped] else [];
      if lr <= 1.0 then Derivation(Failure(RatioNotAboveOne), swapped)
      else
        var df := CheckDepthFactor(depthFactor);
        Derivation(LrLayering(w.wmin, lr, w.wmax / df.factor),
                   swapped + if df.warned then [DepthFactorClamped] else [])
  }

  lemma LrDerivationUnfolds(wmin: real, wmax: real, lr: real, depthFactor: real)
    requires wmin > 0.0 && wmax > 0.0 && lr > 1.0
    ensures var w := CheckWavelengths(wmin, wmax).value;
      LrDerivation(wmin, wmax, lr, depthFactor) ==
        Derivation(LrLayering(w.wmin, lr, w.wmax / CheckDepthFactor(depthFactor).factor),
                   SwapWarnings(wmin, wmax) + ClampWarnings(depthFactor))
  {
  }

  /** Every layer of a geometric stack is thicker than nothing, so the
      maximum depths strictly increase. */
  lemma GeometricIncreases(maxDepths: seq<real>, lr: real)
    requires Geometric(maxDepths, lr)
    ensures forall i :: 1 <= i < |maxDepths| ==> maxDepths[i - 1] < maxDepths[i]
  {
    forall i | 1 <= i < |maxDepths|
      ensures maxDepths[i - 1] < maxDepths[i]
    {
      LayerThicknessAtLeast(maxDepths[0], lr, i);
      assert Thickness(maxDepths, i) == LayerThickness(maxDepths[0], lr, i);
    }
  }

  /** What a closed LR stack looks like: at least three layers, the top
      one from a third to a half of the shorter wavelength, each layer
      starting where the one above may end, maximum depths strictly
      increasing, the last proper layer ending at `dmax` and a one-metre
      half-space below it. Every layer's range is then in order. */
  predicate Closed(b: Bounds, wmin: real, dmax: real) {
    && |b.lower| == |b.upper| >= 3
    && b.lower[0] == wmin / 3.0 && b.upper[0] == wmin / 2.0
    && (forall i :: 1 <= i < |b.lower| ==> b.lower[i] == b.upper[i - 1])
    && (forall i :: 1 <= i < |b.upper| ==> b.upper[i - 1] < b.upper[i])
    && b.upper[|b.upper| - 2] == dmax
    && b.lower[|b.lower| - 1] == dmax && b.upper[|b.upper| - 1] == dmax + 1.0
  }

  /** A closed stack passes check_layers. */
  lemma ClosedIsOrdered(b: Bounds, wmin: real, dmax: real)
    requires wmin > 0.0 && Closed(b, wmin, dmax)
    ensures Ordered(b.lower, b.upper)
  {
    forall i | 0 <= i < |b.lower|
      ensures b.lower[i] <= b.upper[i]
    {
      if i >= 1 {
        assert b.lower[i] == b.upper[i - 1] < b.upper[i];
      }
    }
  }

  /** The closing step turns any strictly increasing stack of three or
      more maximum depths that crosses `dmax` only at its last entry into
      a closed stack. */
  lemma CapCloses(wmin: real, maxDepths: seq<real>, dmax: real)
    requires wmin > 0.0 && |maxDepths| >= 3 && maxDepths[0] == wmin / 2.0
    requires forall i :: 1 <= i < |maxDepths| ==> maxDepths[i - 1] < maxDepths[i]
    requires forall k :: 0 <= k < |maxDepths| - 1 ==> maxDepths[k] < dmax
    ensures var r := CapStack([wmin / 3.0] + maxDepths[..|maxDepths| - 1], maxDepths, dmax);
      r.Success? && Closed(r.value, wmin, dmax)
  {
    var n := |maxDepths|;
    var minDepths := [wmin / 3.0] + maxDepths[..n - 1];
    assert forall i :: 1 <= i < n ==> minDepths[i] == maxDepths[i - 1];
    var b := CapStack(minDepths, maxDepths, dmax).value;
    if dmax - maxDepths[n - 2] > maxDepths[n - 2] - maxDepths[n - 3] {
      assert b.lower == minDepths + [dmax];
      assert b.upper == maxDepths[n - 1 := dmax] + [dmax + 1.0];
      assert forall i :: 1 <= i < |b.lower| ==> b.lower[i] == b.upper[i - 1];
    } else {
      assert b.upper == maxDepths[n - 2 := dmax][n - 1 := dmax + 1.0];
      assert maxDepths[n - 3] < dmax;
    }
  }

  /** The closing step leaves every layer above the last two as the loop
      built it. */
  lemma CapKeepsUpperLayers(wmin: real, maxDepths: seq<real>, dmax: real)
    requires |maxDepths| >= 3
    ensures var r := CapStack([wmin / 3.0] + maxDepths[..|maxDepths| - 1], maxDepths, dmax);
      && r.Success?
      && forall i :: 1 <= i <= |r.value.upper| - 3 ==>
           r.value.lower[i] == maxDepths[i - 1] && r.value.upper[i] == maxDepths[i]
  {
    var n := |maxDepths|;
    var minDepths := [wmin / 3.0] + maxDepths[..n - 1];
    assert forall i :: 1 <= i < n ==> minDepths[i] == maxDepths[i - 1];
  }

  /** The bounds depth_lr returns, when it returns any, form a closed
      stack, so they pass check_layers. */
  lemma LrShape(wmin: real, lr: real, dmax: real)
    requires wmin > 0.0 && lr > 1.0
    ensures var r := LrLayering(wmin, lr, dmax);
      r.Success? ==> Closed(r.value, wmin, dmax) && Ordered(r.value.lower, r.value.upper)
  {
    var maxDepths := GrowMaxDepths([wmin / 2.0], lr, dmax);
    var r := LrLayering(wmin, lr, dmax);
    if r.Success? {
      GrowthStopsAtDmax([wmin / 2.0], lr, dmax);
      GeometricIncreases(maxDepths, lr);
      CapCloses(wmin, maxDepths, dmax);
      ClosedIsOrdered(r.value, wmin, dmax);
    }
  }

  /** Every layer of the returned bounds above the last two keeps its
      geometric thickness: layer `i` spans `lr^i` times half the shorter
      wavelength. */
  lemma LrThicknesses(wmin: real, lr: real, dmax: real)
    requires wmin > 0.0 && lr > 1.0
    ensures var r := LrLayering(wmin, lr, dmax);
      r.Success? ==>
        forall i :: 1 <= i <= |r.value.upper| - 3 ==>
          r.value.upper[i] - r.value.lower[i] == LayerThickness(wmin / 2.0, lr, i)
  {
    var maxDepths := GrowMaxDepths([wmin / 2.0], lr, dmax);
    var r := LrLayering(wmin, lr, dmax);
    if r.Success? {
      GrowthStopsAtDmax([wmin / 2.0], lr, dmax);
      CapKeepsUpperLayers(wmin, maxDepths, dmax);
      forall i | 1 <= i <= |r.value.upper| - 3
        ensures r.value.upper[i] - r.value.lower[i] == LayerThickness(wmin / 2.0, lr, i)
      {
        assert Thickness(maxDepths, i) == LayerThickness(maxDepths[0], lr, i);
      }
    }
  }

  /** depth_lr fails with an index error exactly when the loop stops after
      at most one iteration: the top layer already reaches `dmax`, or the
      first appended one does. */
  lemma LrTooFewLayers(wmin: real, lr: real, dmax: real)
    requires wmin > 0.0 && lr > 1.0
    ensures LrLayering(wmin, lr, dmax).Failure? <==> wmin / 2.0 * lr + wmin / 2.0 >= dmax
    ensures LrLayering(wmin, lr, dmax).Failure? ==> LrLayering(wmin, lr, dmax).error == TooFewLayers
  {
    ShortGrowth(wmin, lr, dmax);
  }

  /** The loop stops with fewer than three maximum depths exactly when the
      first appended depth, the top one times `1 + lr`, reaches `dmax`. */
  lemma ShortGrowth(wmin: real, lr: real, dmax: real)
    requires wmin > 0.0 && lr > 1.0
    ensures |GrowMaxDepths([wmin / 2.0], lr, dmax)| < 3 <==> wmin / 2.0 * lr + wmin / 2.0 >= dmax
  {
    var top := [wmin / 2.0];
    var m := GrowMaxDepths(top, lr, dmax);
    if wmin / 2.0 < dmax {
      RemainingDrops(top, lr, dmax);
      var two := top + [NextMaxDepth(top, lr)];
      assert m == GrowMaxDepths(two, lr, dmax);
      if wmin / 2.0 * lr + wmin / 2.0 < dmax {
        RemainingDrops(two, lr, dmax);
        assert |m| >= 3;
      } else {
        assert m == two;
      }
    } else {
      Amplify(wmin / 2.0, wmin / 2.0, lr);
      assert m == top;
    }
  }

  /** With a two-metre shortest wavelength and a ratio of 2 the maximum
      depths grow 1, 3, 7, 15 until one passes a profiling depth between
      7 and 15. */
  lemma GrowthExample(dmax: real)
    requires 7.0 < dmax <= 15.0
    ensures GrowMaxDepths([1.0], 2.0, dmax) == [1.0, 3.0, 7.0, 15.0]
  {
    RemainingDrops([1.0], 2.0, dmax);
    assert NextMaxDepth([1.0], 2.0) == 3.0;
    assert [1.0] + [3.0] == [1.0, 3.0];
    RemainingDrops([1.0, 3.0], 2.0, dmax);
    assert NextMaxDepth([1.0, 3.0], 2.0) == 7.0;
    assert [1.0, 3.0] + [7.0] == [1.0, 3.0, 7.0];
    RemainingDrops([1.0, 3.0, 7.0], 2.0, dmax);
    assert NextMaxDepth([1.0, 3.0, 7.0], 2.0) == 15.0;
    assert [1.0, 3.0, 7.0] + [15.0] == [1.0, 3.0, 7.0, 15.0];
    calc {
      GrowMaxDepths([1.0], 2.0, dmax);
      GrowMaxDepths([1.0, 3.0], 2.0, dmax);
      GrowMaxDepths([1.0, 3.0, 7.0], 2.0, dmax);
      GrowMaxDepths([1.0, 3.0, 7.0, 15.0], 2.0, dmax);
      [1.0, 3.0, 7.0, 15.0];
    }
  }

  /** Wavelengths 2 and 20, ratio 2, depth factor 2: the gap from 7 to the
      profiling depth 10 is under the four-metre thickness of the layer
      above, so that layer is stretched to 10 and the half-space follows. */
  lemma LrStretchExample()
    ensures LrDerivation(2.0, 20.0, 2.0, 2.0) ==
      Derivation(Success(Bounds([2.0 / 3.0, 1.0, 3.0, 10.0], [1.0, 3.0, 10.0, 11.0])), [])
  {
    LrDerivationUnfolds(2.0, 20.0, 2.0, 2.0);
    GrowthExample(10.0);
    var b := LrLayering(2.0, 2.0, 10.0).value;
    assert b.lower == [2.0 / 3.0, 1.0, 3.0, 10.0];
    assert b.upper == [1.0, 3.0, 10.0, 11.0];
  }

  /** Wavelengths 2 and 24: the gap from 7 to the profiling depth 12
      exceeds four metres, so the last layer is cut at 12 and a half-space
      is added below it. */
  lemma LrHalfSpaceExample()
    ensures LrDerivation(2.0, 24.0, 2.0, 2.0) ==
      Derivation(Success(Bounds([2.0 / 3.0, 1.0, 3.0, 7.0, 12.0], [1.0, 3.0, 7.0, 12.0, 13.0])), [])
  {
    LrDerivationUnfolds(2.0, 24.0, 2.0, 2.0);
    GrowthExample(12.0);
    var b := LrLayering(2.0, 2.0, 12.0).value;
    assert b.lower == [2.0 / 3.0, 1.0, 3.0, 7.0, 12.0];
    assert b.upper == [1.0, 3.0, 7.0, 12.0, 13.0];
  }

  /** Wavelengths 2 and 4 give a profiling depth of 2, which the first
      appended layer already passes: the source's look-back indexes out of
      range. */
  lemma LrTooShallowExample()
    ensures LrDerivation(2.0, 4.0, 2.0, 2.0) == Derivation(Failure(TooFewLayers), [])
  {
    LrDerivationUnfolds(2.0, 4.0, 2.0, 2.0);
    LrTooFewLayers(2.0, 2.0, 2.0);
  }

  /** The stacking loop of depth_lr: starting from a first layer spanning
      a third to a half of the shorter wavelength, append layers, each the
      previous one's thickness times `lr` (the first one its full depth
      times `lr`), until a maximum depth reaches `dmax`. */
  method StackLayers(wmin: real, lr: real, dmax: real) returns (minDepths: seq<real>, maxDepths: seq<real>)
    requires wmin > 0.0 && lr > 1.0
    ensures maxDepths == GrowMaxDepths([wmin / 2.0], lr, dmax)
    ensures minDepths == [wmin / 3.0] + maxDepths[..|maxDepths| - 1]
  {
    minDepths := [wmin / 3.0];
    maxDepths := [wmin / 2.0];
    var laynum := 1;
    while Last(maxDepths) < dmax
      invariant laynum == |maxDepths| >= 1
      invariant maxDepths[0] == wmin / 2.0 && Geometric(maxDepths, lr)
      invariant minDepths == [wmin / 3.0] + maxDepths[..|maxDepths| - 1]
      invariant GrowMaxDepths(maxDepths, lr, dmax) == GrowMaxDepths([wmin / 2.0], lr, dmax)
      decreases Remaining(maxDepths, lr, dmax)
    {
      var last := Last(maxDepths);
      ghost var before := maxDepths;
      RemainingDrops(maxDepths, lr, dmax);
      var next: real;
      if laynum == 1 {
        next := last * lr + last;
        FirstGrowth(before, lr, last, next);
      } else {
        var previous := maxDepths[|maxDepths| - 2];
        next := (last - previous) * lr + last;
        LaterGrowth(before, lr, previous, last, next);
      }
      minDepths := minDepths + [last];
      maxDepths := maxDepths + [next];
      assert maxDepths[..|maxDepths| - 1] == before == before[..|before| - 1] + [last];
      assert GrowMaxDepths(before, lr, dmax) == GrowMaxDepths(maxDepths, lr, dmax);
      laynum := laynum + 1;
    }
  }

  /** Closing the grown stack is the LR layering. */
  lemma StackedLayering(wmin: real, lr: real, dmax: real, minDepths: seq<real>, maxDepths: seq<real>)
    requires wmin > 0.0 && lr > 1.0
    requires maxDepths == GrowMaxDepths([wmin / 2.0], lr, dmax)
    requires minDepths == [wmin / 3.0] + maxDepths[..|maxDepths| - 1]
    ensures |minDepths| == |maxDepths| && CapStack(minDepths, maxDepths, dmax) == LrLayering(wmin, lr, dmax)
  {
  }

  /** depth_lr as the source runs it: the checks, the stacking loop, then
      the last entries of the depth lists overwritten in place. */
  method DepthLr(wmin: real, wmax: real, lr: real, depthFactor: real) returns (d: Derivation)
    ensures d == LrDerivation(wmin, wmax, lr, depthFactor)
  {
    var checked := CheckWavelengths(wmin, wmax);
    if checked.Failure? {
      return Derivation(Failure(checked.error), []);
    }
    var w := checked.value;
    var warnings := if w.swapped then [WavelengthsSwapped] else [];
    if lr <= 1.0 {
      return Derivation(Failure(RatioNotAboveOne), warnings);
    }
    var df := CheckDepthFactor(depthFactor);
    if df.warned {
      warnings := warnings + [DepthFactorClamped];
    }
    var dmax := w.wmax / df.factor;
    var minDepths, maxDepths := StackLayers(w.wmin, lr, dmax);
    LrDerivationUnfolds(wmin, wmax, lr, depthFactor);
    StackedLayering(w.wmin, lr, dmax, minDepths, maxDepths);
    var bounds := CapLayers(minDepths, maxDepths, dmax);
    assert warnings == SwapWarnings(wmin, wmax) + ClampWarnings(depthFactor);
    d := Derivation(bounds, warnings);
  }

  /** The closing step of depth_lr: refuse a stack of fewer than three
      maximum depths, then overwrite the last entries in place. */
  method CapLayers(minDepths: seq<real>, maxDepths: seq<real>, dmax: real) returns (r: Result<Bounds>)
    requires |minDepths| == |maxDepths|
    ensures r == CapStack(minDepths, maxDepths, dmax)
  {
    var lower, upper := minDepths, maxDepths;
    var n := |upper|;
    if n < 3 {
      return Failure(TooFewLayers);
    }
    if dmax - upper[n - 2] > upper[n - 2] - upper[n - 3] {
      upper := upper[n - 1 := dmax];
      lower := lower + [dmax];
      upper := upper + [dmax + 1.0];
    } else {
      upper := upper[n - 2 := dmax];
      lower := lower[n - 1 := dmax];
      upper := upper[n - 1 := dmax + 1.0];
    }
    r := Success(Bounds(lower, upper));
  }
}

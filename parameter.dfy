/**
 * The `Parameter` object: search bounds of one physical property over a
 * stack of layers, built by the validating constructor or by one of the
 * named layering constructors (FX, FTL, LN-thickness/LNI, LN-depth, LR),
 * and compared by its five per-layer lists.
 */
module Parameters {
  import opened Outcomes
  import opened Checks
  import opened Layering
  import opened LayeringRatio

  /** The layering scheme a parameter was built with. */
  datatype ParType = FX | FTL | LNThickness | LNI | LNDepth | LR

  /** The scheme's extra setting: a number, or the text `"depth"` for
      LN-depth. */
  datatype AddValue = Number(x: real) | Text(s: string)

  /** The five per-layer lists of a parameter. */
  datatype Lists = Lists(layMin: seq<real>, layMax: seq<real>, parMin: seq<real>, parMax: seq<real>, parRev: seq<bool>)

  /** The constructor's cross-length check as the source writes it: the
      layer count is refused only when it differs from the value count
      AND from the flag count. */
  predicate LengthsAccepted(layCount: nat, parCount: nat, revCount: nat) {
    !(layCount != parCount && layCount != revCount)
  }

  /** What the validating constructor decides, in its order of checks:
      the extent bounds, the value bounds, the flags' types, then the
      cross-length check. */
  function Construction(layMin: seq<real>, layMax: seq<real>, parMin: seq<real>, parMax: seq<real>, parRev: seq<Scalar>)
    : (r: Result<Lists>)
    ensures r.Success? <==>
      && Ordered(layMin, layMax) && Ordered(parMin, parMax) && AllBool(parRev)
      && LengthsAccepted(|layMin|, |parMin|, |parRev|)
    ensures !Ordered(layMin, layMax) ==>
      r == Failure(LayersVerdict("lay_min", layMin, "lay_max", layMax).error)
    ensures Ordered(layMin, layMax) && !Ordered(parMin, parMax) ==>
      r == Failure(LayersVerdict("par_min", parMin, "par_max", parMax).error)
    ensures Ordered(layMin, layMax) && Ordered(parMin, parMax) && !AllBool(parRev) ==>
      r == Failure(RevNotBool)
    ensures (Ordered(layMin, layMax) && Ordered(parMin, parMax) && AllBool(parRev)
             && !LengthsAccepted(|layMin|, |parMin|, |parRev|)) ==> r == Failure(InconsistentLengths)
    ensures r.Success? ==> r.value == Lists(layMin, layMax, parMin, parMax, Flags(parRev))
  {
    var _ :- LayersVerdict("lay_min", layMin, "lay_max", layMax);
    var _ :- LayersVerdict("par_min", parMin, "par_max", parMax);
    if !AllBool(parRev) then Failure(RevNotBool)
    else if |layMin| != |parMin| && |layMin| != |parRev| then Failure(InconsistentLengths)
    else Success(Lists(layMin, layMax, parMin, parMax, Flags(parRev)))
  }

  /** A single length mismatch passes: three layers with only two value
      bounds are accepted because the flag count matches. */
  lemma SingleMismatchAccepted()
    ensures Construction([1.0, 1.0, 1.0], [2.0, 2.0, 2.0], [100.0, 100.0], [200.0, 200.0],
                         [Bool(false), Bool(false), Bool(false)]).Success?
  {
    var layMin, layMax := [1.0, 1.0, 1.0], [2.0, 2.0, 2.0];
    var parMin, parMax := [100.0, 100.0], [200.0, 200.0];
    assert Ordered(layMin, layMax) by {
      assert forall i :: 0 <= i < 3 ==> layMin[i] <= layMax[i];
    }
    assert Ordered(parMin, parMax) by {
      assert forall i :: 0 <= i < 2 ==> parMin[i] <= parMax[i];
    }
  }

  /** Nothing demands a layer: five empty lists pass every check. */
  lemma EmptyAccepted()
    ensures Construction([], [], [], [], []) == Success(Lists([], [], [], [], []))
  {
  }

  /** Two lists with the same elements in the same order; stops at the
      first length or element difference. */
  method SameList<T(==)>(a: seq<T>, b: seq<T>) returns (same: bool)
    ensures same <==> a == b
  {
    if |a| != |b| {
      return false;
    }
    var i := 0;
    while i < |a|
      invariant 0 <= i <= |a|
      invariant a[..i] == b[..i]
    {
      if a[i] != b[i] {
        return false;
      }
      assert a[..i + 1] == a[..i] + [a[i]] && b[..i + 1] == b[..i] + [b[i]];
      i := i + 1;
    }
    assert a == a[..i] && b == b[..i];
    return true;
  }

  class Parameter {
    var parType: ParType
    var parValue: real
    var parAddValue: AddValue
    var layMin: seq<real>
    var layMax: seq<real>
    var parMin: seq<real>
    var parMax: seq<real>
    var parRev: seq<bool>

    /** The five per-layer lists as one value. */
    function AllLists(): Lists
      reads this
    {
      Lists(layMin, layMax, parMin, parMax, parRev)
    }

    /** What every parameter the validating constructor hands out
        satisfies: both bound pairs in order, and lengths that pass the
        cross-length check. */
    ghost predicate Valid()
      reads this
    {
      && Ordered(layMin, layMax) && Ordered(parMin, parMax)
      && LengthsAccepted(|layMin|, |parMin|, |parRev|)
    }

    /** Field assignment of lists that already passed the checks of
        `Create`, so every constructed parameter is valid. */
    constructor (parType: ParType, lists: Lists)
      requires Ordered(lists.layMin, lists.layMax) && Ordered(lists.parMin, lists.parMax)
      requires LengthsAccepted(|lists.layMin|, |lists.parMin|, |lists.parRev|)
      ensures this.parType == parType && parValue == 0.0 && parAddValue == Number(0.0)
      ensures AllLists() == lists
      ensures Valid()
    {
      this.parType := parType;
      parValue := 0.0;
      parAddValue := Number(0.0);
      layMin := lists.layMin;
      layMax := lists.layMax;
      parMin := lists.parMin;
      parMax := lists.parMax;
      parRev := lists.parRev;
    }

    /** __init__: validate the extent bounds, the value bounds and the
        flags, apply the cross-length check, and build the object with a
        zero value and zero extra setting. */
    static method Create(parType: ParType, layMin: seq<real>, layMax: seq<real>,
                         parMin: seq<real>, parMax: seq<real>, parRev: seq<Scalar>)
      returns (r: Result<Parameter>)
      ensures r.Failure? ==> Construction(layMin, layMax, parMin, parMax, parRev) == Failure(r.error)
      ensures r.Success? ==>
        && Construction(layMin, layMax, parMin, parMax, parRev) == Success(r.value.AllLists())
        && fresh(r.value) && r.value.Valid()
        && r.value.parType == parType && r.value.parValue == 0.0 && r.value.parAddValue == Number(0.0)
    {
      var lay := CheckLayers("lay_min", layMin, "lay_max", layMax);
      if lay.Failure? {
        return Failure(lay.error);
      }
      var par := CheckLayers("par_min", parMin, "par_max", parMax);
      if par.Failure? {
        return Failure(par.error);
      }
      var rev := CheckRev(parRev);
      if rev.Failure? {
        return Failure(rev.error);
      }
      if |layMin| != |parMin| && |layMin| != |rev.value| {
        return Failure(InconsistentLengths);
      }
      var p := new Parameter(parType, Lists(layMin, layMax, parMin, parMax, rev.value));
      return Success(p);
    }

    /** The shared tail of the layering constructors: repeat the value
        bounds and flag once per derived layer (min_max_rev), then build
        through the validating constructor. */
    static method Layered(parType: ParType, lower: seq<real>, upper: seq<real>, nlayers: int,
                          parMin: real, parMax: real, parRev: Scalar)
      returns (r: Result<Parameter>)
      requires nlayers >= 1 && |lower| == |upper| == nlayers
      ensures r.Success? <==> Ordered(lower, upper) && parMin <= parMax && parRev.Bool?
      ensures !Ordered(lower, upper) ==> r == Failure(LayersVerdict("lay_min", lower, "lay_max", upper).error)
      ensures Ordered(lower, upper) && parMin > parMax ==> r == Failure(OutOfOrder("par_min", "par_max", 0))
      ensures Ordered(lower, upper) && parMin <= parMax && !parRev.Bool? ==> r == Failure(RevNotBool)
      ensures r.Success? ==>
        && fresh(r.value) && r.value.Valid()
        && r.value.layMin == lower && r.value.layMax == upper
        && r.value.parMin == seq(nlayers, _ => parMin) && r.value.parMax == seq(nlayers, _ => parMax)
        && r.value.parRev == seq(nlayers, _ => parRev.b)
        && r.value.parType == parType && r.value.parValue == 0.0 && r.value.parAddValue == Number(0.0)
    {
      var broadcast := MinMaxRev(nlayers, parMin, parMax, parRev);
      BroadcastVerdict(nlayers, parMin, parMax, parRev);
      r := Create(parType, lower, upper, broadcast.parMin, broadcast.parMax, broadcast.parRev);
    }

    /** from_fx: a positive value held fixed over one nominal layer
        (extent bounds 1824 and 1883), reversal not allowed. */
    static method FromFx(value: real) returns (r: Result<Parameter>)
      ensures r.Success? <==> value > 0.0
      ensures r.Failure? ==> r.error == NonPositiveValue
      ensures r.Success? ==>
        && fresh(r.value) && r.value.Valid()
        && r.value.AllLists() == Lists([1824.0], [1883.0], [value], [value], [false])
        && r.value.parType == FX && r.value.parValue == value && r.value.parAddValue == Number(0.0)
    {
      if value <= 0.0 {
        return Failure(NonPositiveValue);
      }
      assert Ordered([value], [value]);
      assert Flags([Bool(false)]) == [false];
      r := Create(FX, [1824.0], [1883.0], [value], [value], [Bool(false)]);
      var p := r.value;
      p.parValue := value;
    }

    /** from_ftl: `nlayers` layers of exactly `thickness`, the value
        bounds and flag repeated per layer; the object records the count
        and the thickness. */
    static method FromFtl(nlayers: int, thickness: real, parMin: real, parMax: real, parRev: Scalar)
      returns (r: Result<Parameter>)
      ensures r.Success? <==> nlayers > 0 && thickness > 0.0 && parMin <= parMax && parRev.Bool?
      ensures r.Failure? && DepthFtl(nlayers, thickness).Failure? ==> r.error == DepthFtl(nlayers, thickness).error
      ensures DepthFtl(nlayers, thickness).Success? && parMin > parMax ==>
        r == Failure(OutOfOrder("par_min", "par_max", 0))
      ensures DepthFtl(nlayers, thickness).Success? && parMin <= parMax && !parRev.Bool? ==>
        r == Failure(RevNotBool)
      ensures r.Success? ==>
        && fresh(r.value) && r.value.Valid()
        && r.value.layMin == r.value.layMax == seq(nlayers, _ => thickness)
        && r.value.parMin == seq(nlayers, _ => parMin) && r.value.parMax == seq(nlayers, _ => parMax)
        && r.value.parRev == seq(nlayers, _ => parRev.b)
        && r.value.parType == FTL && r.value.parValue == nlayers as real
        && r.value.parAddValue == Number(thickness)
    {
      var depths := DepthFtl(nlayers, thickness);
      if depths.Failure? {
        return Failure(depths.error);
      }
      r := Layered(FTL, depths.value.lower, depths.value.upper, nlayers, parMin, parMax, parRev);
      if r.Success? {
        var p := r.value;
        p.parValue := nlayers as real;
        p.parAddValue := Number(thickness);
      }
    }

    /** from_ln_thickness: LN (or LNI when `increasing`, which first
        demands an increasing factor above one) thickness bounds, the
        value bounds and flag repeated per layer; the object records the
        layer count and the factor (0 for plain LN). */
    static method FromLnThickness(wmin: real, wmax: real, nlayers: int, parMin: real, parMax: real, parRev: Scalar,
                                  depthFactor: real, increasing: bool, increasingFactor: real)
      returns (r: Result<Parameter>, warnings: seq<Warning>)
      ensures increasing && increasingFactor <= 1.0 ==> r == Failure(IncreasingFactorNotAboveOne) && warnings == []
      ensures !(increasing && increasingFactor <= 1.0) ==>
        && warnings == DepthLnThickness(wmin, wmax, nlayers, depthFactor, increasing).warnings
        && (DepthLnThickness(wmin, wmax, nlayers, depthFactor, increasing).bounds.Failure? ==>
              r == Failure(DepthLnThickness(wmin, wmax, nlayers, depthFactor, increasing).bounds.error))
      ensures r.Success? <==>
        && !(increasing && increasingFactor <= 1.0)
        && wmin > 0.0 && wmax > 0.0 && nlayers >= 1
        && Min(wmin, wmax) / 3.0 <= (if increasing then DepthOfInvestigation(wmin, wmax, depthFactor)
                                     else DepthOfInvestigation(wmin, wmax, depthFactor) / nlayers as real)
        && parMin <= parMax && parRev.Bool?
      ensures !(increasing && increasingFactor <= 1.0)
              && DepthLnThickness(wmin, wmax, nlayers, depthFactor, increasing).bounds.Success? ==>
        var floorFits := Min(wmin, wmax) / 3.0 <=
          (if increasing then DepthOfInvestigation(wmin, wmax, depthFactor)
           else DepthOfInvestigation(wmin, wmax, depthFactor) / nlayers as real);
        && (!floorFits ==> r == Failure(OutOfOrder("lay_min", "lay_max", 0)))
        && (floorFits && parMin > parMax ==> r == Failure(OutOfOrder("par_min", "par_max", 0)))
        && (floorFits && parMin <= parMax && !parRev.Bool? ==> r == Failure(RevNotBool))
      ensures r.Success? ==>
        && fresh(r.value) && r.value.Valid()
        && r.value.layMin == DepthLnThickness(wmin, wmax, nlayers, depthFactor, increasing).bounds.value.lower
        && r.value.layMax == DepthLnThickness(wmin, wmax, nlayers, depthFactor, increasing).bounds.value.upper
        && r.value.parMin == seq(nlayers, _ => parMin) && r.value.parMax == seq(nlayers, _ => parMax)
        && r.value.parRev == seq(nlayers, _ => parRev.b)
        && r.value.parType == (if increasing then LNI else LNThickness)
        && r.value.parValue == nlayers as real
        && r.value.parAddValue == Number(if increasing then increasingFactor else 0.0)
    {
      if increasing && increasingFactor <= 1.0 {
        return Failure(IncreasingFactorNotAboveOne), [];
      }
      var derived := DepthLnThickness(wmin, wmax, nlayers, depthFactor, increasing);
      warnings := derived.warnings;
      if derived.bounds.Failure? {
        return Failure(derived.bounds.error), warnings;
      }
      var depths := derived.bounds.value;
      LnThicknessOrdered(wmin, wmax, nlayers, depthFactor, increasing);
      r := Layered(if increasing then LNI else LNThickness, depths.lower, depths.upper, nlayers, parMin, parMax, parRev);
      if r.Success? {
        var p := r.value;
        p.parValue := nlayers as real;
        p.parAddValue := Number(if increasing then increasingFactor else 0.0);
      }
    }

    /** from_ln_depth: LN-depth bounds, the value bounds and flag repeated
        per layer; the object records the layer count and `"depth"`. */
    static method FromLnDepth(wmin: real, wmax: real, nlayers: int, parMin: real, parMax: real, parRev: Scalar,
                              depthFactor: real)
      returns (r: Result<Parameter>, warnings: seq<Warning>)
      ensures warnings == DepthLnDepth(wmin, wmax, nlayers, depthFactor).warnings
      ensures DepthLnDepth(wmin, wmax, nlayers, depthFactor).bounds.Failure? ==>
        r == Failure(DepthLnDepth(wmin, wmax, nlayers, depthFactor).bounds.error)
      ensures r.Success? <==>
        && wmin > 0.0 && wmax > 0.0 && nlayers >= 1
        && Min(wmin, wmax) / 3.0 <= DepthOfInvestigation(wmin, wmax, depthFactor)
        && parMin <= parMax && parRev.Bool?
      ensures DepthLnDepth(wmin, wmax, nlayers, depthFactor).bounds.Success? ==>
        var floorFits := Min(wmin, wmax) / 3.0 <= DepthOfInvestigation(wmin, wmax, depthFactor);
        && (!floorFits ==> r == Failure(OutOfOrder("lay_min", "lay_max", 0)))
        && (floorFits && parMin > parMax ==> r == Failure(OutOfOrder("par_min", "par_max", 0)))
        && (floorFits && parMin <= parMax && !parRev.Bool? ==> r == Failure(RevNotBool))
      ensures r.Success? ==>
        && fresh(r.value) && r.value.Valid()
        && r.value.layMin == DepthLnDepth(wmin, wmax, nlayers, depthFactor).bounds.value.lower
        && r.value.layMax == DepthLnDepth(wmin, wmax, nlayers, depthFactor).bounds.value.upper
        && r.value.parMin == seq(nlayers, _ => parMin) && r.value.parMax == seq(nlayers, _ => parMax)
        && r.value.parRev == seq(nlayers, _ => parRev.b)
        && r.value.parType == LNDepth && r.value.parValue == nlayers as real
        && r.value.parAddValue == Text("depth")
    {
      var derived := DepthLnDepth(wmin, wmax, nlayers, depthFactor);
      warnings := derived.warnings;
      if derived.bounds.Failure? {
        return Failure(derived.bounds.error), warnings;
      }
      var depths := derived.bounds.value;
      LnDepthOrdered(wmin, wmax, nlayers, depthFactor);
      r := Layered(LNDepth, depths.lower, depths.upper, nlayers, parMin, parMax, parRev);
      if r.Success? {
        var p := r.value;
        p.parValue := nlayers as real;
        p.parAddValue := Text("depth");
      }
    }

    /** from_lr: LR depth bounds, the value bounds and flag repeated once
        per derived layer; the object records the ratio. The derived
        depths always pass check_layers, so only the derivation, the
        value bounds and the flag can fail. */
    static method FromLr(wmin: real, wmax: real, lr: real, parMin: real, parMax: real, parRev: Scalar,
                         depthFactor: real)
      returns (r: Result<Parameter>, warnings: seq<Warning>)
      ensures warnings == LrDerivation(wmin, wmax, lr, depthFactor).warnings
      ensures LrDerivation(wmin, wmax, lr, depthFactor).bounds.Failure? ==>
        r == Failure(LrDerivation(wmin, wmax, lr, depthFactor).bounds.error)
      ensures r.Success? <==>
        LrDerivation(wmin, wmax, lr, depthFactor).bounds.Success? && parMin <= parMax && parRev.Bool?
      ensures LrDerivation(wmin, wmax, lr, depthFactor).bounds.Success? ==>
        && (parMin > parMax ==> r == Failure(OutOfOrder("par_min", "par_max", 0)))
        && (parMin <= parMax && !parRev.Bool? ==> r == Failure(RevNotBool))
      ensures r.Success? ==>
        var b := LrDerivation(wmin, wmax, lr, depthFactor).bounds.value;
        && fresh(r.value) && r.value.Valid()
        && r.value.layMin == b.lower && r.value.layMax == b.upper
        && r.value.parMin == seq(|b.lower|, _ => parMin) && r.value.parMax == seq(|b.lower|, _ => parMax)
        && r.value.parRev == seq(|b.lower|, _ => parRev.b)
        && r.value.parType == LR && r.value.parValue == lr && r.value.parAddValue == Number(0.0)
    {
      var derived := DepthLr(wmin, wmax, lr, depthFactor);
      warnings := derived.warnings;
      if derived.bounds.Failure? {
        return Failure(derived.bounds.error), warnings;
      }
      var depths := derived.bounds.value;
      LrDepthsOrdered(wmin, wmax, lr, depthFactor);
      r := Layered(LR, depths.lower, depths.upper, |depths.lower|, parMin, parMax, parRev);
      if r.Success? {
        var p := r.value;
        p.parValue := lr;
      }
    }

    /** __eq__: equal exactly when all five per-layer lists are equal;
        the scheme, value and extra setting are not compared. */
    method Equals(other: Parameter) returns (eq: bool)
      ensures eq <==> AllLists() == other.AllLists()
    {
      eq := SameList(layMin, other.layMin);
      if !eq {
        return;
      }
      eq := SameList(layMax, other.layMax);
      if !eq {
        return;
      }
      eq := SameList(parMin, other.parMin);
      if !eq {
        return;
      }
      eq := SameList(parMax, other.parMax);
      if !eq {
        return;
      }
      eq := SameList(parRev, other.parRev);
    }
  }

  /** Successful LR bounds pass check_layers, with at least three layers. */
  lemma LrDepthsOrdered(wmin: real, wmax: real, lr: real, depthFactor: real)
    ensures var d := LrDerivation(wmin, wmax, lr, depthFactor);
      d.bounds.Success? ==>
        && Ordered(d.bounds.value.lower, d.bounds.value.upper)
        && |d.bounds.value.lower| >= 3
  {
    var d := LrDerivation(wmin, wmax, lr, depthFactor);
    if d.bounds.Success? {
      LrShape(Min(wmin, wmax), lr, DepthOfInvestigation(wmin, wmax, depthFactor));
    }
  }
}

/**
 * The validators every `Parameter` constructor runs (check_layers,
 * check_rev) and the scalar normalisations the layering derivations share
 * (check_wavelengths, check_depth_factor, min_max_rev).
 */
module Checks {
  import opened Outcomes

  /** A reversal flag as the caller passed it: only a genuine `bool` is
      accepted, never an integer or float standing in for one. */
  datatype Scalar = Bool(b: bool) | Int(i: int) | Float(f: real)

  /** Equal lengths and `lower[i] <= upper[i]` at every index. */
  predicate Ordered(lower: seq<real>, upper: seq<real>) {
    |lower| == |upper| && forall i :: 0 <= i < |lower| ==> lower[i] <= upper[i]
  }

  /** The first index whose lower bound exceeds its upper bound, if any. */
  function FirstDisorder(lower: seq<real>, upper: seq<real>): (r: Option<nat>)
    requires |lower| == |upper|
    ensures r.None? <==> Ordered(lower, upper)
    ensures r.Some? ==> r.value < |lower| && lower[r.value] > upper[r.value]
    ensures r.Some? ==> forall j :: 0 <= j < r.value ==> lower[j] <= upper[j]
  {
    if |lower| == 0 then None
    else if lower[0] > upper[0] then Some(0)
    else match FirstDisorder(lower[1..], upper[1..])
      case None => None
      case Some(i) => Some(i + 1)
  }

  /** What check_layers decides: the pair unchanged, or the error it raises. */
  function LayersVerdict(lowerName: string, lower: seq<real>, upperName: string, upper: seq<real>): (r: Result<Bounds>)
    ensures r.Success? <==> Ordered(lower, upper)
    ensures r.Success? ==> r.value == Bounds(lower, upper)
    ensures |lower| != |upper| ==> r == Failure(LengthMismatch(lowerName, upperName))
    ensures |lower| == |upper| && r.Failure? ==>
      && r.error.OutOfOrder?
      && r.error.lowerName == lowerName && r.error.upperName == upperName
      && r.error.index < |lower| && lower[r.error.index] > upper[r.error.index]
      && forall j :: 0 <= j < r.error.index ==> lower[j] <= upper[j]
  {
    if |lower| != |upper| then Failure(LengthMismatch(lowerName, upperName))
    else match FirstDisorder(lower, upper)
      case None => Success(Bounds(lower, upper))
      case Some(i) => Failure(OutOfOrder(lowerName, upperName, i))
  }

  /** check_layers: length check, then a scan that stops at the first
      index whose lower bound exceeds its upper bound. */
  method CheckLayers(lowerName: string, lower: seq<real>, upperName: string, upper: seq<real>)
    returns (r: Result<Bounds>)
    ensures r == LayersVerdict(lowerName, lower, upperName, upper)
  {
    if |lower| != |upper| {
      return Failure(LengthMismatch(lowerName, upperName));
    }
    var index := 0;
    while index < |lower|
      invariant 0 <= index <= |lower|
      invariant forall j :: 0 <= j < index ==> lower[j] <= upper[j]
    {
      if lower[index] > upper[index] {
        return Failure(OutOfOrder(lowerName, upperName, index));
      }
      index := index + 1;
    }
    return Success(Bounds(lower, upper));
  }

  predicate AllBool(revs: seq<Scalar>) {
    forall i :: 0 <= i < |revs| ==> revs[i].Bool?
  }

  /** The boolean values of flags that are all genuine booleans. */
  function Flags(revs: seq<Scalar>): (r: seq<bool>)
    requires AllBool(revs)
    ensures |r| == |revs| && forall i :: 0 <= i < |r| ==> r[i] == revs[i].b
  {
    seq(|revs|, i requires 0 <= i < |revs| => revs[i].b)
  }

  /** check_rev: every flag must be exactly a `bool`; 1 and 0 are refused. */
  method CheckRev(parRev: seq<Scalar>) returns (r: Result<seq<bool>>)
    ensures r.Success? <==> AllBool(parRev)
    ensures r.Failure? ==> r.error == RevNotBool && r.error.Class() == TypeError
    ensures r.Success? ==> r.value == Flags(parRev)
  {
    var i := 0;
    while i < |parRev|
      invariant 0 <= i <= |parRev|
      invariant forall j :: 0 <= j < i ==> parRev[j].Bool?
    {
      if !parRev[i].Bool? {
        return Failure(RevNotBool);
      }
      i := i + 1;
    }
    return Success(Flags(parRev));
  }

  /** The normalised wavelength pair and whether a swap was logged. */
  datatype Wavelengths = Wavelengths(wmin: real, wmax: real, swapped: bool)

  /** check_wavelengths: both must be positive; a reversed pair is put in
      order with a warning instead of being refused. */
  function CheckWavelengths(wmin: real, wmax: real): (r: Result<Wavelengths>)
    ensures r.Success? <==> wmin > 0.0 && wmax > 0.0
    ensures r.Failure? ==> r.error == NonPositiveWavelength
    ensures r.Success? ==>
      && 0.0 < r.value.wmin <= r.value.wmax
      && multiset{r.value.wmin, r.value.wmax} == multiset{wmin, wmax}
      && (r.value.swapped <==> wmin > wmax)
      && (!r.value.swapped ==> r.value.wmin == wmin && r.value.wmax == wmax)
  {
    if wmin <= 0.0 || wmax <= 0.0 then Failure(NonPositiveWavelength)
    else if wmin > wmax then Success(Wavelengths(wmax, wmin, true))
    else Success(Wavelengths(wmin, wmax, false))
  }

  /** The depth factor actually used and whether clamping was logged. */
  datatype Clamped = Clamped(factor: real, warned: bool)

  /** check_depth_factor: a factor below 2 is raised to 2 with a warning. */
  function CheckDepthFactor(depthFactor: real): (r: Clamped)
    ensures r.factor >= 2.0
    ensures r.factor == depthFactor || r.factor == 2.0
    ensures depthFactor >= 2.0 ==> r.factor == depthFactor
    ensures r.warned <==> depthFactor < 2.0
  {
    if depthFactor < 2.0 then Clamped(2.0, true) else Clamped(depthFactor, false)
  }

  /** The three per-layer lists min_max_rev builds from scalars. */
  datatype Broadcast = Broadcast(parMin: seq<real>, parMax: seq<real>, parRev: seq<Scalar>)

  /** min_max_rev: each scalar repeated `nlayers` times (Python list
      repetition, so a negative count gives empty lists). */
  function MinMaxRev(nlayers: int, parMin: real, parMax: real, parRev: Scalar): (r: Broadcast)
    ensures |r.parMin| == |r.parMax| == |r.parRev| == (if nlayers < 0 then 0 else nlayers)
    ensures forall i :: 0 <= i < |r.parMin| ==>
      r.parMin[i] == parMin && r.parMax[i] == parMax && r.parRev[i] == parRev
  {
    var n := if nlayers < 0 then 0 else nlayers;
    Broadcast(seq(n, _ => parMin), seq(n, _ => parMax), seq(n, _ => parRev))
  }

  /** Broadcast value bounds and flags pass check_layers and check_rev
      exactly when the scalars themselves would; a reversed pair fails at
      index 0. */
  lemma BroadcastVerdict(nlayers: int, parMin: real, parMax: real, parRev: Scalar)
    requires nlayers >= 1
    ensures var b := MinMaxRev(nlayers, parMin, parMax, parRev);
      && (Ordered(b.parMin, b.parMax) <==> parMin <= parMax)
      && (AllBool(b.parRev) <==> parRev.Bool?)
      && (parMin > parMax ==>
            LayersVerdict("par_min", b.parMin, "par_max", b.parMax) == Failure(OutOfOrder("par_min", "par_max", 0)))
  {
    var b := MinMaxRev(nlayers, parMin, parMax, parRev);
    assert b.parMin[0] == parMin && b.parMax[0] == parMax && b.parRev[0] == parRev;
  }
}

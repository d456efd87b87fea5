/** The reaction-plane flow estimator: the check of the harmonic `n`, the
    partition of each event's particles into half-open bins of an observable,
    the flat weighted accumulation per bin with its zero-weight guard, and the
    integrated flow over all events with its final division. The complex
    contribution `pt^n exp(i n phi) / pt^n` of a particle is an uninterpreted
    function of `n`, `pt` and `phi`. */
module ReactionPlane {
  import opened Common
  import opened Particles

  /** A complex number as its real and imaginary parts. */
  datatype Complex = Complex(re: real, im: real)

  const Zero: Complex := Complex(0.0, 0.0)

  function Add(a: Complex, b: Complex): Complex {
    Complex(a.re + b.re, a.im + b.im)
  }

  function Scale(w: real, c: Complex): Complex {
    Complex(w * c.re, w * c.im)
  }

  function Divide(c: Complex, d: real): Complex
    requires d != 0.0
  {
    Complex(c.re / d, c.im / d)
  }

  datatype FlowError =
    | HarmonicNotInt                    // n is not an int
    | HarmonicNotPositive               // n <= 0
    | BinsNotList                       // bins neither a list nor an array
    | VariableNotString                 // the binning variable is not a string
    | UnknownVariable                   // not "pt", "rapidity" or "pseudorapidity"
    | ZeroTotalWeight                   // complex division by a zero weight sum
    | ParticleFailure(cause: ParticleError) // a particle getter raises

  /** The exception class each error is raised as. */
  function ExceptionOf(e: FlowError): PythonException {
    match e
    case HarmonicNotInt => TypeError
    case BinsNotList => TypeError
    case VariableNotString => TypeError
    case ZeroTotalWeight => ZeroDivisionError
    case _ => ValueError
  }

  /** The particle library and the contribution of a particle to the n-th
      harmonic, from `n`, `pt` and `phi`. */
  datatype FlowLib = FlowLib(lib: Lib, term: (int, real, real) -> Complex)

  // ---------------------------------------------------------------------
  // The harmonic

  /** The harmonic when the constructor is given none. */
  const DefaultHarmonic: int := 2

  /** The constructor's check: an int (a bool is one too) that is positive. */
  function Harmonic(v: Value): (r: Result<int, FlowError>)
    ensures r.Success? <==> AsInt(v).Some? && AsInt(v).value > 0
    ensures r.Success? ==> r.value == AsInt(v).value
    ensures AsInt(v).None? <==> r == Failure(HarmonicNotInt)
    ensures r.Failure? ==> ExceptionOf(r.error) == (if AsInt(v).None? then TypeError else ValueError)
  {
    match AsInt(v)
    case None => Failure(HarmonicNotInt)
    case Some(n) => if n <= 0 then Failure(HarmonicNotPositive) else Success(n)
  }

  // ---------------------------------------------------------------------
  // One particle's share

  function Lift(r: Result<real, ParticleError>): (l: Result<real, FlowError>)
    ensures l.Success? <==> r.Success?
    ensures r.Success? ==> l.value == r.value
    ensures r.Failure? ==> l.error == ParticleFailure(r.error)
  {
    match r
    case Success(x) => Success(x)
    case Failure(e) => Failure(ParticleFailure(e))
  }

  /** The weight a particle counts with. `fixed` says whether an unset weight
      counts as 1; as written the weight is read through the getter, which
      raises when it is unset, so it never reads as None. */
  function WeightWith(p: Record, fixed: bool): Result<real, FlowError> {
    if fixed then Success(if Weight in p.fields then p.fields[Weight] else 1.0)
    else match Get(p, Weight)
      case Failure(e) => Failure(ParticleFailure(e))
      case Success(None) => Success(1.0)
      case Success(Some(w)) => Success(w)
  }

  /** As written, a particle without a weight makes the weight read raise;
      counting an unset weight as 1 gives it weight 1. Both agree on a
      particle that has a weight. */
  lemma {:induction false} UnsetWeightAsWritten(p: Record)
    ensures Weight !in p.fields ==> WeightWith(p, false) == Failure(ParticleFailure(NotSet(Weight)))
    ensures Weight !in p.fields ==> WeightWith(p, true) == Success(1.0)
    ensures Weight in p.fields ==> WeightWith(p, false) == WeightWith(p, true) == Success(p.fields[Weight])
  {
  }

  /** A particle's weighted contribution and its weight; the weight, `pt`
      and `phi` are read in that order. */
  function Contribution(p: Record, n: int, fl: FlowLib, fixed: bool): Result<(Complex, real), FlowError> {
    var w :- WeightWith(p, fixed);
    var pt :- Lift(PtAbs(p, fl.lib));
    var phi :- Lift(Phi(p, fl.lib));
    Success((Scale(w, fl.term(n, pt, phi)), w))
  }

  /** The share of each particle: its weighted contribution and its weight,
      or the error its reads raise. */
  type Contributor = Record -> Result<(Complex, real), FlowError>

  function ContributionOf(n: int, fl: FlowLib, fixed: bool): Contributor {
    p => Contribution(p, n, fl, fixed)
  }

  /** The running sums over particles: the weighted contributions and the
      weights, or the first error. */
  function Accumulate(ps: seq<Record>, f: Contributor): Result<(Complex, real), FlowError>
    decreases |ps|
  {
    if |ps| == 0 then Success((Zero, 0.0))
    else
      var acc :- Accumulate(ps[..|ps| - 1], f);
      var c :- f(ps[|ps| - 1]);
      Success((Add(acc.0, c.0), acc.1 + c.1))
  }

  /** The particles of several events, event after event. */
  function Flatten(events: seq<seq<Record>>): (ps: seq<Record>)
    decreases |events|
  {
    if |events| == 0 then [] else Flatten(events[..|events| - 1]) + events[|events| - 1]
  }

  lemma {:induction false} FlattenAppend(a: seq<seq<Record>>, b: seq<seq<Record>>)
    ensures Flatten(a + b) == Flatten(a) + Flatten(b)
    decreases |b|
  {
    if |b| == 0 {
      assert a + b == a;
    } else {
      assert (a + b)[..|a + b| - 1] == a + b[..|b| - 1];
      FlattenAppend(a, b[..|b| - 1]);
    }
  }

  lemma {:induction false} FlattenPrefix(events: seq<seq<Record>>, e: nat)
    requires e < |events|
    ensures Flatten(events[..e + 1]) == Flatten(events[..e]) + events[e]
  {
    assert events[..e + 1][..e] == events[..e];
  }

  /** Accumulating two runs of particles one after the other: the sums add
      up, and the first error wins. */
  lemma {:induction false} AccumulateAppend(a: seq<Record>, b: seq<Record>, f: Contributor)
    ensures var ra, rb := Accumulate(a, f), Accumulate(b, f);
      Accumulate(a + b, f) ==
        if ra.Failure? then ra
        else if rb.Failure? then rb
        else Success((Add(ra.value.0, rb.value.0), ra.value.1 + rb.value.1))
    decreases |b|
  {
    if |b| == 0 {
      assert a + b == a;
    } else {
      assert (a + b)[..|a + b| - 1] == a + b[..|b| - 1];
      assert (a + b)[|a + b| - 1] == b[|b| - 1];
      AccumulateAppend(a, b[..|b| - 1], f);
    }
  }

  /** Every contribution that exists has a non-negative weight, and a zero
      weight only with a zero contribution. */
  predicate Signed(ps: seq<Record>, f: Contributor) {
    forall i :: 0 <= i < |ps| && f(ps[i]).Success? ==>
      f(ps[i]).value.1 >= 0.0 && (f(ps[i]).value.1 == 0.0 ==> f(ps[i]).value.0 == Zero)
  }

  /** No particle carries a negative weight. */
  predicate NonNegativeWeights(ps: seq<Record>) {
    forall i :: 0 <= i < |ps| && Weight in ps[i].fields ==> ps[i].fields[Weight] >= 0.0
  }

  /** A contribution is scaled by its weight, so particles without a negative
      weight contribute with a sign. */
  lemma {:induction false} NonNegativeSigned(ps: seq<Record>, n: int, fl: FlowLib)
    requires NonNegativeWeights(ps)
    ensures Signed(ps, ContributionOf(n, fl, true))
  {
    forall i | 0 <= i < |ps| && ContributionOf(n, fl, true)(ps[i]).Success?
      ensures ContributionOf(n, fl, true)(ps[i]).value.1 >= 0.0
      ensures ContributionOf(n, fl, true)(ps[i]).value.1 == 0.0 ==> ContributionOf(n, fl, true)(ps[i]).value.0 == Zero
    {
      assert ContributionOf(n, fl, true)(ps[i]) == Contribution(ps[i], n, fl, true);
    }
  }

  /** With signed contributions the weight sum is not negative, and a zero
      weight sum comes with a zero sum of contributions. */
  lemma {:induction false} ZeroWeightSumsToZero(ps: seq<Record>, f: Contributor)
    requires Signed(ps, f) && Accumulate(ps, f).Success?
    ensures Accumulate(ps, f).value.1 >= 0.0
    ensures Accumulate(ps, f).value.1 == 0.0 ==> Accumulate(ps, f).value.0 == Zero
    decreases |ps|
  {
    if |ps| > 0 {
      var init := ps[..|ps| - 1];
      var last := ps[|ps| - 1];
      assert Signed(init, f) by {
        assert forall i :: 0 <= i < |init| ==> init[i] == ps[i];
      }
      ZeroWeightSumsToZero(init, f);
      var acc, c := Accumulate(init, f).value, f(last).value;
      assert Accumulate(ps, f).value == (Add(acc.0, c.0), acc.1 + c.1);
      assert c.1 >= 0.0 && (c.1 == 0.0 ==> c.0 == Zero);
    }
  }

  // ---------------------------------------------------------------------
  // The integrated flow

  /** The state of the integrated-flow loop after some events: the running
      average numerator and the running weight sum. */
  datatype Running = Running(average: Complex, weight: real)

  /** The event loop as written: after each event the event's sum is added
      to the numerator while the running weight is non-zero, and the
      numerator is reset to 0 while it is zero. */
  function IntegratedRun(events: seq<seq<Record>>, f: Contributor): Result<Running, FlowError>
    decreases |events|
  {
    if |events| == 0 then Success(Running(Zero, 0.0))
    else
      var r :- IntegratedRun(events[..|events| - 1], f);
      var acc :- Accumulate(events[|events| - 1], f);
      var w := r.weight + acc.1;
      Success(Running(if w != 0.0 then Add(r.average, acc.0) else Zero, w))
  }

  /** `integrated_flow`: the numerator divided by the weight sum, a
      division that raises when the sum is zero. */
  function IntegratedFlowWith(events: seq<seq<Record>>, f: Contributor): Result<Complex, FlowError> {
    var r :- IntegratedRun(events, f);
    if r.weight == 0.0 then Failure(ZeroTotalWeight) else Success(Divide(r.average, r.weight))
  }

  /** The integrated flow with an unset weight counting as 1. */
  function IntegratedFlowOf(events: seq<seq<Record>>, n: int, fl: FlowLib): Result<Complex, FlowError> {
    IntegratedFlowWith(events, ContributionOf(n, fl, true))
  }

  /** The event loop sums flat over all particles of all events: it fails
      exactly when the flat accumulation does, its weight is the flat weight
      sum, and with signed contributions the reset never drops one, so its
      numerator is the flat sum. */
  lemma {:induction false} IntegratedRunIsFlat(events: seq<seq<Record>>, f: Contributor)
    ensures var r, acc := IntegratedRun(events, f), Accumulate(Flatten(events), f);
      && (r.Success? <==> acc.Success?)
      && (r.Failure? ==> r.error == acc.error)
      && (r.Success? ==> r.value.weight == acc.value.1)
      && (r.Success? && Signed(Flatten(events), f) ==> r.value.average == acc.value.0)
    decreases |events|
  {
    if |events| > 0 {
      var init := events[..|events| - 1];
      var last := events[|events| - 1];
      IntegratedRunIsFlat(init, f);
      FlattenPrefix(events, |events| - 1);
      assert events[..|events|] == events;
      AccumulateAppend(Flatten(init), last, f);
      var flat := Flatten(events);
      if IntegratedRun(events, f).Success? && Signed(flat, f) {
        assert forall i :: 0 <= i < |Flatten(init)| ==> Flatten(init)[i] == flat[i];
        ZeroWeightSumsToZero(flat, f);
      }
    }
  }

  /** Hence `integrated_flow` is the flat weighted mean of the
      contributions, and raises ZeroDivisionError exactly when the weights
      sum to zero. */
  lemma {:induction false} IntegratedFlowIsFlatMean(events: seq<seq<Record>>, n: int, fl: FlowLib)
    requires NonNegativeWeights(Flatten(events))
    ensures var acc := Accumulate(Flatten(events), ContributionOf(n, fl, true));
      IntegratedFlowOf(events, n, fl) ==
        if acc.Failure? then Failure(acc.error)
        else if acc.value.1 == 0.0 then Failure(ZeroTotalWeight)
        else Success(Divide(acc.value.0, acc.value.1))
  {
    NonNegativeSigned(Flatten(events), n, fl);
    IntegratedRunIsFlat(events, ContributionOf(n, fl, true));
  }

  /** Without any particle the weight sum is 0, and `integrated_flow`
      raises ZeroDivisionError from its final division. */
  lemma {:induction false} NoParticlesRaises(events: seq<seq<Record>>, n: int, fl: FlowLib)
    requires forall e :: 0 <= e < |events| ==> events[e] == []
    ensures IntegratedFlowOf(events, n, fl) == Failure(ZeroTotalWeight)
    ensures ExceptionOf(ZeroTotalWeight) == ZeroDivisionError
  {
    FlattenEmpties(events);
    IntegratedFlowIsFlatMean(events, n, fl);
  }

  /** Particles without a weight count once each, so the weight sum is their
      number. */
  lemma {:induction false} UnweightedCount(ps: seq<Record>, n: int, fl: FlowLib)
    requires forall i :: 0 <= i < |ps| ==> Weight !in ps[i].fields
    requires Accumulate(ps, ContributionOf(n, fl, true)).Success?
    ensures Accumulate(ps, ContributionOf(n, fl, true)).value.1 == |ps| as real
    decreases |ps|
  {
    if |ps| > 0 {
      var init := ps[..|ps| - 1];
      assert forall i :: 0 <= i < |init| ==> init[i] == ps[i];
      UnweightedCount(init, n, fl);
      assert ContributionOf(n, fl, true)(ps[|ps| - 1]) == Contribution(ps[|ps| - 1], n, fl, true);
    }
  }

  /** As written, an event whose first particle has no weight makes
      `integrated_flow` raise from the weight getter. */
  lemma {:induction false} UnweightedIntegratedAsWritten(events: seq<seq<Record>>, n: int, fl: FlowLib)
    requires |events| > 0 && |events[0]| > 0 && Weight !in events[0][0].fields
    ensures IntegratedFlowWith(events, ContributionOf(n, fl, false)) == Failure(ParticleFailure(NotSet(Weight)))
  {
    var f := ContributionOf(n, fl, false);
    var first := events[0];
    assert f(first[0]) == Contribution(first[0], n, fl, false);
    assert first[..1][..0] == [];
    assert Accumulate(first[..1], f).Failure?;
    AccumulatePrefixFails(first, f, 1);
    assert events[..1][..0] == [];
    assert IntegratedRun(events[..1], f).Failure?;
    IntegratedRunPrefixFails(events, f, 1);
  }

  lemma {:induction false} IntegratedRunPrefixFails(events: seq<seq<Record>>, f: Contributor, e: nat)
    requires e <= |events| && IntegratedRun(events[..e], f).Failure?
    ensures IntegratedRun(events, f) == IntegratedRun(events[..e], f)
    decreases |events| - e
  {
    if e < |events| {
      assert events[..e + 1][..e] == events[..e];
      IntegratedRunPrefixFails(events, f, e + 1);
    } else {
      assert events[..e] == events;
    }
  }

  /** With an unset weight counting as 1, unweighted particles whose momenta
      are set give the plain mean of their contributions. */
  lemma {:induction false} UnweightedIntegratedCorrected(events: seq<seq<Record>>, n: int, fl: FlowLib)
    requires |Flatten(events)| > 0
    requires forall i :: 0 <= i < |Flatten(events)| ==> Weight !in Flatten(events)[i].fields
    requires Accumulate(Flatten(events), ContributionOf(n, fl, true)).Success?
    ensures IntegratedFlowOf(events, n, fl)
         == Success(Divide(Accumulate(Flatten(events), ContributionOf(n, fl, true)).value.0, |Flatten(events)| as real))
  {
    UnweightedCount(Flatten(events), n, fl);
    IntegratedFlowIsFlatMean(events, n, fl);
  }

  // ---------------------------------------------------------------------
  // Binning

  datatype Variable = VarPt | VarRapidity | VarPseudorapidity

  /** The binning variable's check: a string, and one of the three names. */
  function VariableNamed(v: Value): (r: Result<Variable, FlowError>)
    ensures r.Success? <==> v.VStr? && v.s in {"pt", "rapidity", "pseudorapidity"}
    ensures !v.VStr? <==> r == Failure(VariableNotString)
    ensures r.Failure? ==> ExceptionOf(r.error) == (if v.VStr? then ValueError else TypeError)
  {
    if !v.VStr? then Failure(VariableNotString)
    else if v.s == "pt" then Success(VarPt)
    else if v.s == "rapidity" then Success(VarRapidity)
    else if v.s == "pseudorapidity" then Success(VarPseudorapidity)
    else Failure(UnknownVariable)
  }

  /** The value a particle is binned by. */
  function Observable(p: Record, variable: Variable, lib: Lib): Result<real, FlowError> {
    match variable
    case VarPt => Lift(PtAbs(p, lib))
    case VarRapidity => Lift(MomentumRapidity(p, lib))
    case VarPseudorapidity => Lift(Pseudorapidity(p, lib))
  }

  /** The value a particle is binned by, or the error its reads raise. */
  type Observer = Record -> Result<real, FlowError>

  /** The observable as a function of the particle. */
  function ObservableOf(variable: Variable, lib: Lib): Observer {
    p => Observable(p, variable, lib)
  }

  /** Bin `k` is the half-open interval `[bins[k], bins[k + 1])`. */
  predicate InBin(v: real, bins: seq<real>, k: nat)
    requires k + 1 < |bins|
  {
    bins[k] <= v < bins[k + 1]
  }

  /** `len(bins) - 1` bins, none for fewer than two edges. */
  function NumBins(bins: seq<real>): nat {
    if |bins| == 0 then 0 else |bins| - 1
  }

  /** The particles of one event in bin `k`, in event order, as the particle
      loop collects them. */
  function BinEvent(event: seq<Record>, bins: seq<real>, k: nat, obs: Observer): Result<seq<Record>, FlowError>
    requires k + 1 < |bins|
    decreases |event|
  {
    if |event| == 0 then Success([])
    else
      var init :- BinEvent(event[..|event| - 1], bins, k, obs);
      var v :- obs(event[|event| - 1]);
      Success(if InBin(v, bins, k) then init + [event[|event| - 1]] else init)
  }

  /** Bin `k` of every event, one list per event. */
  function BinEvents(data: seq<seq<Record>>, bins: seq<real>, k: nat, obs: Observer)
    : Result<seq<seq<Record>>, FlowError>
    requires k + 1 < |bins|
    decreases |data|
  {
    if |data| == 0 then Success([])
    else
      var init :- BinEvents(data[..|data| - 1], bins, k, obs);
      var b :- BinEvent(data[|data| - 1], bins, k, obs);
      Success(init + [b])
  }

  /** The first `m` bins. */
  function Binned(data: seq<seq<Record>>, bins: seq<real>, m: nat, obs: Observer)
    : Result<seq<seq<seq<Record>>>, FlowError>
    requires m <= NumBins(bins)
    decreases m
  {
    if m == 0 then Success([])
    else
      var init :- Binned(data, bins, m - 1, obs);
      var b :- BinEvents(data, bins, m - 1, obs);
      Success(init + [b])
  }

  /** The binning of `differential_flow`. */
  function Bin(data: seq<seq<Record>>, bins: seq<real>, obs: Observer)
    : Result<seq<seq<seq<Record>>>, FlowError>
  {
    Binned(data, bins, NumBins(bins), obs)
  }

  /** Every particle of the event has a value to be binned by. */
  predicate Observed(event: seq<Record>, obs: Observer) {
    forall i :: 0 <= i < |event| ==> obs(event[i]).Success?
  }

  /** Whether a particle has a value in `[lo, hi)`. */
  predicate Within(p: Record, lo: real, hi: real, obs: Observer) {
    var v := obs(p);
    v.Success? && lo <= v.value < hi
  }

  /** The reference selection: the particles whose value lies in `[lo, hi)`,
      in order. */
  function Select(event: seq<Record>, lo: real, hi: real, obs: Observer): (s: seq<Record>)
    ensures |s| <= |event|
    decreases |event|
  {
    if |event| == 0 then []
    else (if Within(event[0], lo, hi, obs) then [event[0]] else []) + Select(event[1..], lo, hi, obs)
  }

  /** Selecting from a run of particles followed by one more. */
  lemma {:induction false} SelectSnoc(event: seq<Record>, lo: real, hi: real, obs: Observer)
    requires |event| > 0
    ensures var last := event[|event| - 1];
      Select(event, lo, hi, obs) ==
        Select(event[..|event| - 1], lo, hi, obs)
        + (if Within(last, lo, hi, obs) then [last] else [])
    decreases |event|
  {
    if |event| > 1 {
      var init := event[..|event| - 1];
      var tail := event[1..];
      SelectSnoc(tail, lo, hi, obs);
      assert tail[..|tail| - 1] == init[1..];
      Reassociate(
        if Within(event[0], lo, hi, obs) then [event[0]] else [],
        Select(init[1..], lo, hi, obs),
        if Within(event[|event| - 1], lo, hi, obs) then [event[|event| - 1]] else []);
    } else {
      assert event[1..] == [];
      assert event[..0] == [];
    }
  }

  /** The particle loop of one bin selects exactly the particles whose value
      lies in the bin, in order; it fails exactly when a particle has no
      value. */
  lemma {:induction false} BinEventSelects(event: seq<Record>, bins: seq<real>, k: nat, obs: Observer)
    requires k + 1 < |bins|
    ensures BinEvent(event, bins, k, obs).Success? <==> Observed(event, obs)
    ensures Observed(event, obs) ==>
      BinEvent(event, bins, k, obs) == Success(Select(event, bins[k], bins[k + 1], obs))
    decreases |event|
  {
    if |event| > 0 {
      var init := event[..|event| - 1];
      var last := event[|event| - 1];
      BinEventSelects(init, bins, k, obs);
      assert forall i :: 0 <= i < |init| ==> init[i] == event[i];
      assert Observed(event, obs) <==>
        Observed(init, obs) && obs(last).Success?;
      if Observed(event, obs) {
        SelectSnoc(event, bins[k], bins[k + 1], obs);
        assert Within(last, bins[k], bins[k + 1], obs)
           <==> InBin(obs(last).value, bins, k);
        var chosen := Select(init, bins[k], bins[k + 1], obs);
        assert chosen + [] == chosen;
      }
    }
  }

  /** The members of a selection: the particles of the event whose value
      lies in the interval. */
  lemma {:induction false} SelectMembers(event: seq<Record>, lo: real, hi: real, obs: Observer, p: Record)
    ensures p in Select(event, lo, hi, obs) <==> p in event && Within(p, lo, hi, obs)
    decreases |event|
  {
    if |event| > 0 {
      SelectMembers(event[1..], lo, hi, obs, p);
      assert event == [event[0]] + event[1..];
    }
  }

  /** Splitting an interval at `mid` splits the selection's size. */
  lemma {:induction false} SelectSplit(event: seq<Record>, lo: real, mid: real, hi: real, obs: Observer)
    requires lo <= mid <= hi
    ensures |Select(event, lo, hi, obs)|
         == |Select(event, lo, mid, obs)| + |Select(event, mid, hi, obs)|
    decreases |event|
  {
    if |event| > 0 {
      SelectSplit(event[1..], lo, mid, hi, obs);
    }
  }

  /** An empty interval selects nothing. */
  lemma {:induction false} EmptySelect(event: seq<Record>, lo: real, obs: Observer)
    ensures Select(event, lo, lo, obs) == []
    decreases |event|
  {
    if |event| > 0 {
      EmptySelect(event[1..], lo, obs);
    }
  }

  /** Strictly increasing bin edges. */
  predicate Increasing(bins: seq<real>) {
    forall i, j :: 0 <= i < j < |bins| ==> bins[i] < bins[j]
  }

  /** The particles of an event in bins `0 .. m - 1`, counted bin by bin. */
  function CountInBins(event: seq<Record>, bins: seq<real>, m: nat, obs: Observer): nat
    requires m < |bins|
    decreases m
  {
    if m == 0 then 0
    else CountInBins(event, bins, m - 1, obs) + |Select(event, bins[m - 1], bins[m], obs)|
  }

  /** With increasing edges the bins are disjoint and cover exactly
      `[bins[0], bins[m])`: the bin counts add up to the number of particles
      in that range, and so to no more than the event's size. */
  lemma {:induction false} BinsPartition(event: seq<Record>, bins: seq<real>, m: nat, obs: Observer)
    requires Increasing(bins) && m < |bins|
    ensures CountInBins(event, bins, m, obs) == |Select(event, bins[0], bins[m], obs)|
    ensures CountInBins(event, bins, m, obs) <= |event|
    decreases m
  {
    if m == 0 {
      EmptySelect(event, bins[0], obs);
    } else {
      BinsPartition(event, bins, m - 1, obs);
      assert bins[0] <= bins[m - 1] <= bins[m] by {
        if m - 1 > 0 {
          assert bins[0] < bins[m - 1];
        }
        assert bins[m - 1] < bins[m];
      }
      SelectSplit(event, bins[0], bins[m - 1], bins[m], obs);
    }
  }

  /** With increasing edges a value lies in at most one bin, and in none when
      it is outside `[bins[0], bins[|bins| - 1])`. */
  lemma {:induction false} OneBinAtMost(v: real, bins: seq<real>, k: nat, j: nat)
    requires Increasing(bins) && k + 1 < |bins| && j + 1 < |bins|
    ensures InBin(v, bins, k) && InBin(v, bins, j) ==> k == j
    ensures v < bins[0] || v >= bins[|bins| - 1] ==> !InBin(v, bins, k)
  {
    if k < j {
      assert bins[k + 1] <= bins[j];
    } else if j < k {
      assert bins[j + 1] <= bins[k];
    }
    if 0 < k {
      assert bins[0] < bins[k];
    }
    if k + 1 < |bins| - 1 {
      assert bins[k + 1] < bins[|bins| - 1];
    }
  }

  /** Every particle of every event has a value to be binned by. */
  predicate AllObserved(data: seq<seq<Record>>, obs: Observer) {
    forall e :: 0 <= e < |data| ==> Observed(data[e], obs)
  }

  lemma {:induction false} BinEventsShape(data: seq<seq<Record>>, bins: seq<real>, k: nat, obs: Observer)
    requires k + 1 < |bins|
    ensures BinEvents(data, bins, k, obs).Success? <==> AllObserved(data, obs)
    ensures BinEvents(data, bins, k, obs).Success? ==>
      var r := BinEvents(data, bins, k, obs).value;
      && |r| == |data|
      && (forall e :: 0 <= e < |data| ==> r[e] == Select(data[e], bins[k], bins[k + 1], obs))
    decreases |data|
  {
    if |data| > 0 {
      var init := data[..|data| - 1];
      BinEventsShape(init, bins, k, obs);
      BinEventSelects(data[|data| - 1], bins, k, obs);
      assert forall e :: 0 <= e < |init| ==> init[e] == data[e];
    }
  }

  /** The binning fails exactly when there is a bin and some particle has
      no value. */
  lemma {:induction false} BinnedSucceeds(data: seq<seq<Record>>, bins: seq<real>, m: nat, obs: Observer)
    requires m <= NumBins(bins)
    ensures Binned(data, bins, m, obs).Success? <==> m == 0 || AllObserved(data, obs)
    decreases m
  {
    if m > 0 {
      BinnedSucceeds(data, bins, m - 1, obs);
      BinEventsShape(data, bins, m - 1, obs);
    }
  }

  /** The binning gives `len(bins) - 1` bins of one list per event; list `e`
      of bin `k` is the selection of event `e` by the bin's interval. */
  lemma {:induction false} BinnedShape(data: seq<seq<Record>>, bins: seq<real>, m: nat, obs: Observer)
    requires m <= NumBins(bins) && Binned(data, bins, m, obs).Success?
    ensures var r := Binned(data, bins, m, obs).value;
      && |r| == m
      && (forall k :: 0 <= k < m ==> |r[k]| == |data|)
      && (forall k, e :: 0 <= k < m && 0 <= e < |data| ==>
            r[k][e] == Select(data[e], bins[k], bins[k + 1], obs))
    decreases m
  {
    if m > 0 {
      BinnedShape(data, bins, m - 1, obs);
      BinEventsShape(data, bins, m - 1, obs);
      var init := Binned(data, bins, m - 1, obs).value;
      var last := BinEvents(data, bins, m - 1, obs).value;
      var r := Binned(data, bins, m, obs).value;
      assert r == init + [last];
      assert forall k :: 0 <= k < m - 1 ==> r[k] == init[k];
      assert r[m - 1] == last;
    }
  }

  // ---------------------------------------------------------------------
  // The differential flow

  /** One bin's flow: the flat weighted sum over all its events divided by
      their weight sum, 0 when that sum is 0. */
  function BinFlow(bin: seq<seq<Record>>, f: Contributor): (r: Result<Complex, FlowError>)
    ensures r.Success? <==> Accumulate(Flatten(bin), f).Success?
    ensures r.Success? && Accumulate(Flatten(bin), f).value.1 == 0.0 ==> r.value == Zero
  {
    var acc :- Accumulate(Flatten(bin), f);
    if acc.1 != 0.0 then Success(Divide(acc.0, acc.1)) else Success(Zero)
  }

  /** The flows of the bins, in bin order. */
  function BinFlows(binned: seq<seq<seq<Record>>>, f: Contributor): (r: Result<seq<Complex>, FlowError>)
    decreases |binned|
  {
    if |binned| == 0 then Success([])
    else
      var init :- BinFlows(binned[..|binned| - 1], f);
      var flow :- BinFlow(binned[|binned| - 1], f);
      Success(init + [flow])
  }

  /** One value per bin, in bin order, each the flow of its bin. */
  lemma {:induction false} BinFlowsShape(binned: seq<seq<seq<Record>>>, f: Contributor)
    ensures BinFlows(binned, f).Success? <==> forall k :: 0 <= k < |binned| ==> BinFlow(binned[k], f).Success?
    ensures BinFlows(binned, f).Success? ==>
      var r := BinFlows(binned, f).value;
      |r| == |binned| && forall k :: 0 <= k < |binned| ==> r[k] == BinFlow(binned[k], f).value
    decreases |binned|
  {
    if |binned| > 0 {
      var init := binned[..|binned| - 1];
      BinFlowsShape(init, f);
      assert forall k :: 0 <= k < |init| ==> init[k] == binned[k];
    }
  }

  /** `differential_flow`: the argument checks in order, the binning, then
      the flow of each bin. */
  function DifferentialFlowOf(data: seq<seq<Record>>, bins: Option<seq<real>>, variable: Value, n: int, fl: FlowLib)
    : (r: Result<seq<Complex>, FlowError>)
    ensures bins.None? ==> r == Failure(BinsNotList)
    ensures bins.Some? && VariableNamed(variable).Failure? ==> r == Failure(VariableNamed(variable).error)
  {
    if bins.None? then Failure(BinsNotList)
    else
      var v :- VariableNamed(variable);
      var binned :- Bin(data, bins.value, ObservableOf(v, fl.lib));
      BinFlows(binned, ContributionOf(n, fl, true))
  }

  /** A bin no particle falls into has flow 0. */
  lemma {:induction false} EmptyBinFlow(bin: seq<seq<Record>>, f: Contributor)
    requires forall e :: 0 <= e < |bin| ==> bin[e] == []
    ensures BinFlow(bin, f) == Success(Zero)
  {
    FlattenEmpties(bin);
  }

  lemma {:induction false} FlattenEmpties(bin: seq<seq<Record>>)
    requires forall e :: 0 <= e < |bin| ==> bin[e] == []
    ensures Flatten(bin) == []
    decreases |bin|
  {
    if |bin| > 0 {
      var init := bin[..|bin| - 1];
      assert forall e :: 0 <= e < |init| ==> init[e] == [];
      FlattenEmpties(init);
    }
  }

  // ---------------------------------------------------------------------
  // The estimator object

  class ReactionPlaneFlow {
    const n: int

    constructor(n: int)
      requires n > 0
      ensures this.n == n
    {
      this.n := n;
    }

    /** `ReactionPlaneFlow(n)` with its argument check; without an argument
        the harmonic is the default 2. */
    static method New(arg: Option<Value>) returns (r: Result<ReactionPlaneFlow, FlowError>)
      ensures arg.None? ==> r.Success? && fresh(r.value) && r.value.n == DefaultHarmonic
      ensures arg.Some? ==> (r.Success? <==> Harmonic(arg.value).Success?)
      ensures arg.Some? && r.Failure? ==> r.error == Harmonic(arg.value).error
      ensures arg.Some? && r.Success? ==> fresh(r.value) && r.value.n == Harmonic(arg.value).value
    {
      var v := if arg.Some? then arg.value else VInt(DefaultHarmonic);
      var h := Harmonic(v);
      if h.Failure? {
        return Failure(h.error);
      }
      var flow := new ReactionPlaneFlow(h.value);
      return Success(flow);
    }

    /** `integrated_flow`: the event loop and the particle loop, then the
        division. */
    method IntegratedFlow(data: seq<seq<Record>>, fl: FlowLib) returns (r: Result<Complex, FlowError>)
      ensures r == IntegratedFlowOf(data, n, fl)
    {
      r := IntegratedFlowLoop(data, ContributionOf(n, fl, true));
    }

    /** The loops of `integrated_flow`, over the share `f` of each particle. */
    static method IntegratedFlowLoop(data: seq<seq<Record>>, f: Contributor) returns (r: Result<Complex, FlowError>)
      ensures r == IntegratedFlowWith(data, f)
    {
      var average := Zero;
      var number := 0.0;
      var e := 0;
      while e < |data|
        invariant 0 <= e <= |data|
        invariant IntegratedRun(data[..e], f) == Success(Running(average, number))
      {
        assert data[..e + 1][..e] == data[..e];
        var event := data[e];
        var flowEvent := Zero;
        ghost var eventWeight := 0.0;
        var i := 0;
        while i < |event|
          invariant 0 <= i <= |event|
          invariant Accumulate(event[..i], f) == Success((flowEvent, eventWeight))
          invariant number == IntegratedRun(data[..e], f).value.weight + eventWeight
        {
          assert event[..i + 1][..i] == event[..i];
          var c := f(event[i]);
          if c.Failure? {
            AccumulatePrefixFails(event, f, i + 1);
            IntegratedRunPrefixFails(data, f, e + 1);
            return Failure(c.error);
          }
          flowEvent := Add(flowEvent, c.value.0);
          number := number + c.value.1;
          eventWeight := eventWeight + c.value.1;
          i := i + 1;
        }
        assert event[..i] == event;
        if number != 0.0 {
          average := Add(average, flowEvent);
        } else {
          average := Zero;
        }
        e := e + 1;
      }
      assert data[..e] == data;
      if number == 0.0 {
        return Failure(ZeroTotalWeight);
      }
      return Success(Divide(average, number));
    }

    /** `differential_flow`: the checks, the binning, the per-bin flow. */
    method DifferentialFlow(data: seq<seq<Record>>, bins: Option<seq<real>>, variable: Value, fl: FlowLib)
      returns (r: Result<seq<Complex>, FlowError>)
      ensures r == DifferentialFlowOf(data, bins, variable, n, fl)
    {
      if bins.None? {
        return Failure(BinsNotList);
      }
      var v := VariableNamed(variable);
      if v.Failure? {
        return Failure(v.error);
      }
      var binned := BinParticles(data, bins.value, v.value, fl.lib);
      if binned.Failure? {
        return Failure(binned.error);
      }
      r := DifferentialFlowCalculation(binned.value, fl);
    }

    /** The three nested loops that fill the bins. */
    static method BinParticles(data: seq<seq<Record>>, bins: seq<real>, variable: Variable, lib: Lib)
      returns (r: Result<seq<seq<seq<Record>>>, FlowError>)
      ensures r == Bin(data, bins, ObservableOf(variable, lib))
    {
      ghost var obs := ObservableOf(variable, lib);
      var particlesBin: seq<seq<seq<Record>>> := [];
      var k := 0;
      while k < NumBins(bins)
        invariant 0 <= k <= NumBins(bins)
        invariant Binned(data, bins, k, obs) == Success(particlesBin)
      {
        var eventsBin: seq<seq<Record>> := [];
        var e := 0;
        while e < |data|
          invariant 0 <= e <= |data|
          invariant BinEvents(data[..e], bins, k, obs) == Success(eventsBin)
        {
          assert data[..e + 1][..e] == data[..e];
          var event := data[e];
          var particlesEvent: seq<Record> := [];
          var i := 0;
          while i < |event|
            invariant 0 <= i <= |event|
            invariant BinEvent(event[..i], bins, k, obs) == Success(particlesEvent)
          {
            assert event[..i + 1][..i] == event[..i];
            var val := Observable(event[i], variable, lib);
            assert val == obs(event[i]);
            if val.Failure? {
              BinParticleFails(data, bins, k, e, i, obs);
              return Failure(val.error);
            }
            if bins[k] <= val.value && val.value < bins[k + 1] {
              particlesEvent := particlesEvent + [event[i]];
            }
            i := i + 1;
          }
          assert event[..i] == event;
          eventsBin := eventsBin + [particlesEvent];
          e := e + 1;
        }
        assert data[..e] == data;
        particlesBin := particlesBin + [eventsBin];
        k := k + 1;
      }
      return Success(particlesBin);
    }

    /** The per-bin accumulation into a result list assigned bin by bin. */
    method DifferentialFlowCalculation(binned: seq<seq<seq<Record>>>, fl: FlowLib)
      returns (r: Result<seq<Complex>, FlowError>)
      ensures r == BinFlows(binned, ContributionOf(n, fl, true))
    {
      var f := ContributionOf(n, fl, true);
      var flowDifferential := new Complex[|binned|](_ => Zero);
      var k := 0;
      while k < |binned|
        invariant 0 <= k <= |binned|
        invariant BinFlows(binned[..k], f) == Success(flowDifferential[..k])
      {
        assert binned[..k + 1][..k] == binned[..k];
        var flow := BinFlowLoop(binned[k], f);
        if flow.Failure? {
          BinFlowsPrefixFails(binned, f, k + 1);
          return Failure(flow.error);
        }
        flowDifferential[k] := flow.value;
        assert flowDifferential[..k + 1] == flowDifferential[..k] + [flow.value];
        k := k + 1;
      }
      assert binned[..k] == binned;
      assert flowDifferential[..k] == flowDifferential[..];
      return Success(flowDifferential[..]);
    }

    /** One bin: the event loop and the particle loop accumulate flat, then
        the guarded division. */
    static method BinFlowLoop(bin: seq<seq<Record>>, f: Contributor) returns (r: Result<Complex, FlowError>)
      ensures r == BinFlow(bin, f)
    {
      var number := 0.0;
      var average := Zero;
      var e := 0;
      while e < |bin|
        invariant 0 <= e <= |bin|
        invariant Accumulate(Flatten(bin[..e]), f) == Success((average, number))
      {
        var event := bin[e];
        var flowEvent := Zero;
        ghost var eventWeight := 0.0;
        var i := 0;
        while i < |event|
          invariant 0 <= i <= |event|
          invariant Accumulate(event[..i], f) == Success((flowEvent, eventWeight))
          invariant number == Accumulate(Flatten(bin[..e]), f).value.1 + eventWeight
        {
          assert event[..i + 1][..i] == event[..i];
          var c := f(event[i]);
          if c.Failure? {
            BinFlowFails(bin, e, i, f);
            return Failure(c.error);
          }
          flowEvent := Add(flowEvent, c.value.0);
          number := number + c.value.1;
          eventWeight := eventWeight + c.value.1;
          i := i + 1;
        }
        assert event[..i] == event;
        FlattenPrefix(bin, e);
        AccumulateAppend(Flatten(bin[..e]), event, f);
        average := Add(average, flowEvent);
        e := e + 1;
      }
      assert bin[..e] == bin;
      if number != 0.0 {
        return Success(Divide(average, number));
      }
      return Success(Zero);
    }
  }

  /** A particle without a contribution, met in event `e` of a bin at
      position `i`, fails the bin's accumulation with its error. */
  lemma {:induction false} BinFlowFails(bin: seq<seq<Record>>, e: nat, i: nat, f: Contributor)
    requires e < |bin| && i < |bin[e]|
    requires Accumulate(Flatten(bin[..e]), f).Success?
    requires Accumulate(bin[e][..i], f).Success?
    requires f(bin[e][i]).Failure?
    ensures Accumulate(Flatten(bin), f) == Failure(f(bin[e][i]).error)
  {
    var event := bin[e];
    assert event[..i + 1][..i] == event[..i];
    AccumulatePrefixFails(event, f, i + 1);
    FlattenPrefix(bin, e);
    AccumulateAppend(Flatten(bin[..e]), event, f);
    FlattenAppend(bin[..e + 1], bin[e + 1..]);
    assert bin[..e + 1] + bin[e + 1..] == bin;
    AccumulateAppend(Flatten(bin[..e + 1]), Flatten(bin[e + 1..]), f);
  }

  // ---------------------------------------------------------------------
  // Failure propagation of the back-recursive loops

  lemma {:induction false} AccumulatePrefixFails(ps: seq<Record>, f: Contributor, i: nat)
    requires i <= |ps| && Accumulate(ps[..i], f).Failure?
    ensures Accumulate(ps, f) == Accumulate(ps[..i], f)
    decreases |ps| - i
  {
    if i < |ps| {
      assert ps[..i + 1][..i] == ps[..i];
      AccumulatePrefixFails(ps, f, i + 1);
    } else {
      assert ps[..i] == ps;
    }
  }

  lemma {:induction false} BinEventPrefixFails(event: seq<Record>, bins: seq<real>, k: nat, obs: Observer, i: nat)
    requires k + 1 < |bins| && i <= |event| && BinEvent(event[..i], bins, k, obs).Failure?
    ensures BinEvent(event, bins, k, obs) == BinEvent(event[..i], bins, k, obs)
    decreases |event| - i
  {
    if i < |event| {
      assert event[..i + 1][..i] == event[..i];
      BinEventPrefixFails(event, bins, k, obs, i + 1);
    } else {
      assert event[..i] == event;
    }
  }

  lemma {:induction false} BinEventsPrefixFails(data: seq<seq<Record>>, bins: seq<real>, k: nat, obs: Observer, e: nat)
    requires k + 1 < |bins| && e <= |data| && BinEvents(data[..e], bins, k, obs).Failure?
    ensures BinEvents(data, bins, k, obs) == BinEvents(data[..e], bins, k, obs)
    decreases |data| - e
  {
    if e < |data| {
      assert data[..e + 1][..e] == data[..e];
      BinEventsPrefixFails(data, bins, k, obs, e + 1);
    } else {
      assert data[..e] == data;
    }
  }

  /** A bin whose event loop fails makes every longer run of bins fail the
      same way. */
  lemma {:induction false} BinnedFails(data: seq<seq<Record>>, bins: seq<real>, j: nat, m: nat, obs: Observer)
    requires j < m <= NumBins(bins)
    requires Binned(data, bins, j, obs).Success? && BinEvents(data, bins, j, obs).Failure?
    ensures Binned(data, bins, m, obs) == Failure(BinEvents(data, bins, j, obs).error)
    decreases m
  {
    if j + 1 < m {
      BinnedFails(data, bins, j, m - 1, obs);
    }
  }

  /** A particle without a value, met in bin `k`, event `e`, position `i`,
      fails the whole binning with its error. */
  lemma {:induction false} BinParticleFails(data: seq<seq<Record>>, bins: seq<real>, k: nat, e: nat, i: nat, obs: Observer)
    requires k < NumBins(bins) && e < |data| && i < |data[e]|
    requires Binned(data, bins, k, obs).Success?
    requires BinEvents(data[..e], bins, k, obs).Success?
    requires BinEvent(data[e][..i], bins, k, obs).Success?
    requires obs(data[e][i]).Failure?
    ensures Bin(data, bins, obs) == Failure(obs(data[e][i]).error)
  {
    var event := data[e];
    assert event[..i + 1][..i] == event[..i];
    BinEventPrefixFails(event, bins, k, obs, i + 1);
    assert data[..e + 1][..e] == data[..e];
    BinEventsPrefixFails(data, bins, k, obs, e + 1);
    BinnedFails(data, bins, k, NumBins(bins), obs);
  }

  lemma {:induction false} BinFlowsPrefixFails(binned: seq<seq<seq<Record>>>, f: Contributor, k: nat)
    requires k <= |binned| && BinFlows(binned[..k], f).Failure?
    ensures BinFlows(binned, f) == BinFlows(binned[..k], f)
    decreases |binned| - k
  {
    if k < |binned| {
      assert binned[..k + 1][..k] == binned[..k];
      BinFlowsPrefixFails(binned, f, k + 1);
    } else {
      assert binned[..k] == binned;
    }
  }
}

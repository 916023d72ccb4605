/**
 * Properties of the simulation engine's specification functions: where the
 * generated path starts and ends, how the scenario types relate, what an
 * option brick pays, which trigger events are reported, and the bounds on
 * the statistics of one run.
 */
module EngineProperties {
  import opened Wrappers
  import opened Seqs
  import opened Bricks
  import opened Scenarios
  import opened Engine

  // ---------------------------------------------------------------------------
  // Price path

  /** With a target end price (and not `custom`), the last point of the path is exactly that price. */
  lemma EndpointTargeting(s: MarketScenario, o: Oracles)
    requires 1 <= s.parameters.steps <= |o.normals|
    requires Retargets(s) && PowOfOneIsIdentity(o.pow)
    ensures PricePath(s, o)[s.parameters.steps] == s.parameters.endPrice.value
  {
    var n := s.parameters.steps;
    var e := s.parameters.endPrice.value;
    var raw := RawPath(s.scenarioType, s.parameters, o, n);
    var last := raw[n];
    assert last >= PriceFloor;
    assert n as real / (|raw| - 1) as real == 1.0;
    assert o.pow(e / last, 1.0) == e / last;
    assert RescaledAt(raw, e, o.pow, n) == last * (e / last);
  }

  /** Without rescaling, every simulated point after the start stays at or above the 0.01 floor. */
  lemma FloorWithoutTarget(s: MarketScenario, o: Oracles)
    requires 1 <= s.parameters.steps <= |o.normals|
    requires !Retargets(s)
    ensures var path := PricePath(s, o);
      forall i :: 1 <= i < |path| ==> path[i] >= PriceFloor
  {
  }

  /** Rescaling multiplies each point after the start by `pow(endPrice / last, i / steps)`, and the start is kept. */
  lemma RescaledPoints(s: MarketScenario, o: Oracles, i: nat)
    requires 1 <= s.parameters.steps <= |o.normals| && Retargets(s)
    requires 1 <= i <= s.parameters.steps
    ensures var raw := RawPath(s.scenarioType, s.parameters, o, s.parameters.steps);
      PricePath(s, o)[i]
        == raw[i] * o.pow(s.parameters.endPrice.value / raw[s.parameters.steps], i as real / s.parameters.steps as real)
  {
  }

  /** `downtrend` and the default branch (`custom`) use the `uptrend` formula: the drift's sign comes from the parameters. */
  lemma {:induction false} TrendFormulasAgree(t: ScenarioType, p: ScenarioParameters, o: Oracles, n: nat)
    requires t == Downtrend || t == Custom
    requires 1 <= p.steps && n <= |o.normals|
    ensures RawPath(t, p, o, n) == RawPath(Uptrend, p, o, n)
  {
    if n > 0 {
      TrendFormulasAgree(t, p, o, n - 1);
      var c := RawPath(Uptrend, p, o, n - 1)[n - 1];
      assert PriceChange(t, p, TimeStep(p), o.sqrtDt, c, o.normals[n - 1])
          == PriceChange(Uptrend, p, TimeStep(p), o.sqrtDt, c, o.normals[n - 1]);
    }
  }

  /** A `flat` walk is an `uptrend` walk whose drift is zero. */
  lemma {:induction false} FlatIsDriftFree(p: ScenarioParameters, o: Oracles, n: nat)
    requires 1 <= p.steps && n <= |o.normals|
    ensures RawPath(Flat, p, o, n) == RawPath(Uptrend, p.(drift := 0.0), o, n)
  {
    if n > 0 {
      FlatIsDriftFree(p, o, n - 1);
      var q := p.(drift := 0.0);
      var c := RawPath(Flat, p, o, n - 1)[n - 1];
      assert TimeStep(q) == TimeStep(p);
      FlatStep(p, TimeStep(p), o.sqrtDt, c, o.normals[n - 1]);
    }
  }

  /** One `flat` step moves the price as an `uptrend` step with zero drift would. */
  lemma FlatStep(p: ScenarioParameters, dt: real, sqrtDt: real, c: real, z: real)
    ensures PriceChange(Flat, p, dt, sqrtDt, c, z) == PriceChange(Uptrend, p.(drift := 0.0), dt, sqrtDt, c, z)
  {
    assert 0.0 * dt == 0.0;
  }

  /** A `volatile` walk is an `uptrend` walk with one and a half times the volatility. */
  lemma {:induction false} VolatileScalesVolatility(p: ScenarioParameters, o: Oracles, n: nat)
    requires 1 <= p.steps && n <= |o.normals|
    ensures RawPath(Volatile, p, o, n) == RawPath(Uptrend, p.(volatility := 1.5 * p.volatility), o, n)
  {
    if n > 0 {
      VolatileScalesVolatility(p, o, n - 1);
      var prev := RawPath(Volatile, p, o, n - 1);
      var c := prev[n - 1];
      var z := o.normals[n - 1];
      var dt := TimeStep(p);
      var q := p.(volatility := 1.5 * p.volatility);
      assert TimeStep(q) == dt;
      assert p.volatility * o.sqrtDt * z * 1.5 == q.volatility * o.sqrtDt * z;
      assert PriceChange(Volatile, p, dt, o.sqrtDt, c, z) == PriceChange(Uptrend, q, dt, o.sqrtDt, c, z);
    }
  }

  /** The generated path never reads the scenario's `customPath`. */
  lemma CustomPathIgnored(s: MarketScenario, o: Oracles, custom: Option<seq<real>>)
    requires 1 <= s.parameters.steps <= |o.normals|
    ensures PricePath(s.(customPath := custom), o) == PricePath(s, o)
  {
    assert Retargets(s.(customPath := custom)) == Retargets(s);
  }

  // ---------------------------------------------------------------------------
  // Option payoffs

  /** A long call minus a long put on the same strike and notional is the forward `(spot - strike) * notional / 1000`. */
  lemma VanillaParity(strike: real, notional: real, spot: real)
    ensures VanillaPayoff(true, true, strike, notional, spot) - VanillaPayoff(false, true, strike, notional, spot)
            == (spot - strike) * (notional / 1000.0)
  {
    var k := notional / 1000.0;
    if spot >= strike {
      assert VanillaPayoff(false, true, strike, notional, spot) == 0.0 * k;
    } else {
      assert VanillaPayoff(true, true, strike, notional, spot) == 0.0 * k;
    }
  }

  /** A short position pays exactly the negation of the long one. */
  lemma ShortNegatesLong(isCall: bool, strike: real, notional: real, spot: real)
    ensures VanillaPayoff(isCall, false, strike, notional, spot) == -VanillaPayoff(isCall, true, strike, notional, spot)
  {
    var intrinsic := if isCall then Max(0.0, spot - strike) else Max(0.0, strike - spot);
    assert (-intrinsic) * (notional / 1000.0) == -(intrinsic * (notional / 1000.0));
  }

  /** A long vanilla with a non-negative notional never pays less than zero, and pays zero out of the money. */
  lemma LongVanillaSign(isCall: bool, strike: real, notional: real, spot: real)
    requires notional >= 0.0
    ensures VanillaPayoff(isCall, true, strike, notional, spot) >= 0.0
    ensures (if isCall then spot <= strike else spot >= strike) ==> VanillaPayoff(isCall, true, strike, notional, spot) == 0.0
  {
    var intrinsic := if isCall then Max(0.0, spot - strike) else Max(0.0, strike - spot);
    assert intrinsic >= 0.0 && notional / 1000.0 >= 0.0;
  }

  /** A digital pays its payout exactly when the spot is at or beyond the strike on its side, including at the strike, and 0 otherwise. */
  lemma DigitalThreshold(isAbove: bool, strike: real, payout: real, spot: real)
    requires payout != 0.0
    ensures isAbove ==> (DigitalPayoff(isAbove, strike, payout, spot) == payout <==> spot >= strike)
    ensures !isAbove ==> (DigitalPayoff(isAbove, strike, payout, spot) == payout <==> spot <= strike)
    ensures DigitalPayoff(isAbove, strike, payout, strike) == payout
    ensures (if isAbove then spot < strike else spot > strike) ==> DigitalPayoff(isAbove, strike, payout, spot) == 0.0
  {
  }

  /** Summing option contributions distributes over concatenation. */
  lemma {:induction false} SumPayoffsAppend(a: seq<Brick>, b: seq<Brick>, spot: real)
    requires forall x :: x in a + b ==> IsOption(x) && Evaluable(x)
    ensures SumPayoffs(a + b, spot) == SumPayoffs(a, spot) + SumPayoffs(b, spot)
    decreases |b|
  {
    if |b| == 0 {
      assert a + b == a;
    } else {
      var b' := b[..|b| - 1];
      assert (a + b)[..|a + b| - 1] == a + b';
      SumPayoffsAppend(a, b', spot);
    }
  }

  /** The step payoff of two graphs side by side is the sum of their step payoffs. */
  lemma StepPayoffAppend(a: seq<Brick>, b: seq<Brick>, spot: real)
    requires AllEvaluable(a) && AllEvaluable(b)
    ensures AllEvaluable(a + b)
    ensures StepPayoff(a + b, spot) == StepPayoff(a, spot) + StepPayoff(b, spot)
  {
    FilterAppend(a, b, IsOption);
    SumPayoffsAppend(Options(a), Options(b), spot);
  }

  /** Bricks outside the option category never change the step payoff. */
  lemma NonOptionIgnored(bricks: seq<Brick>, b: Brick, spot: real)
    requires AllEvaluable(bricks) && !IsOption(b)
    ensures AllEvaluable(bricks + [b])
    ensures StepPayoff(bricks + [b], spot) == StepPayoff(bricks, spot)
  {
    StepPayoffAppend(bricks, [b], spot);
    assert Filter([b], IsOption) == [];
  }

  /** A graph without option bricks pays nothing at any spot. */
  lemma NoOptionsNoPayoff(bricks: seq<Brick>, spot: real)
    requires forall b :: b in bricks ==> !IsOption(b)
    ensures AllEvaluable(bricks) && StepPayoff(bricks, spot) == 0.0
  {
    FilterNone(bricks, IsOption);
  }

  // ---------------------------------------------------------------------------
  // Trigger events

  /** The triggers among `ts` whose condition holds at `spot`. */
  function BarrierHits(ts: seq<Brick>, spot: real): (r: seq<Brick>)
    ensures forall b :: b in r ==> b in ts && BarrierHit(b, spot)
  {
    Filter(ts, b => BarrierHit(b, spot))
  }

  /** One barrier event per hit trigger, in list order, each carrying that trigger's type and level (`BarrierEventOf`). */
  lemma {:induction false} BarrierEventsExact(ts: seq<Brick>, spot: real)
    ensures var events := BarrierEvents(ts, spot);
      var hits := BarrierHits(ts, spot);
      && |events| == |hits|
      && forall i :: 0 <= i < |events| ==>
           events[i] == BarrierEventOf(hits[i], spot)
    decreases |ts|
  {
    if |ts| > 0 {
      BarrierEventsExact(ts[..|ts| - 1], spot);
    }
  }

  /** Every barrier event names one of the three trigger types. */
  lemma {:induction false} BarrierEventTypes(ts: seq<Brick>, spot: real)
    ensures forall e :: e in BarrierEvents(ts, spot) ==> e.BarrierEvent? && e.triggerType in TriggerTypes
    decreases |ts|
  {
    if |ts| > 0 {
      BarrierEventTypes(ts[..|ts| - 1], spot);
    }
  }

  /** The triggers among `ts` whose autocall level is reached at `spot`. */
  function AutocallHits(ts: seq<Brick>, spot: real): (r: seq<Brick>)
    ensures forall b :: b in r ==> b in ts && AutocallHit(b, spot)
  {
    Filter(ts, b => AutocallHit(b, spot))
  }

  /** One autocall event per trigger whose level is reached, in list order, carrying that level. */
  lemma {:induction false} AutocallEventsExact(ts: seq<Brick>, spot: real)
    ensures var events := AutocallEvents(ts, spot);
      var hits := AutocallHits(ts, spot);
      && |events| == |hits|
      && forall i :: 0 <= i < |events| ==> IsNum(hits[i].properties, "autocallLevel") && events[i] == AutocallEventOf(hits[i])
    decreases |ts|
  {
    if |ts| > 0 {
      AutocallEventsExact(ts[..|ts| - 1], spot);
    }
  }

  /** A graph with no barrier and no autocall trigger reports no events. */
  lemma NoTriggersNoEvents(bricks: seq<Brick>, spot: real)
    requires forall b :: b in bricks ==> b.kind != BarrierTrigger && b.kind != AutocallTrigger
    ensures TriggerEvents(bricks, spot) == []
  {
    FilterNone(bricks, IsBarrierTrigger);
    FilterNone(bricks, IsAutocallTrigger);
  }

  /** Barrier events always come before autocall events, and there are never more events than triggers. */
  lemma EventBound(bricks: seq<Brick>, spot: real)
    ensures var events := TriggerEvents(bricks, spot);
      var nb := |BarrierHits(Filter(bricks, IsBarrierTrigger), spot)|;
      && nb <= |events| <= |Filter(bricks, IsBarrierTrigger)| + |Filter(bricks, IsAutocallTrigger)|
      && (forall i :: 0 <= i < nb ==> events[i].BarrierEvent?)
      && (forall i :: nb <= i < |events| ==> events[i].AutocallEvent?)
  {
    var bt := Filter(bricks, IsBarrierTrigger);
    var at := Filter(bricks, IsAutocallTrigger);
    BarrierEventsExact(bt, spot);
    AutocallEventsExact(at, spot);
  }

  // ---------------------------------------------------------------------------
  // Statistics of one run

  /** A count out of a positive total is a fraction in [0, 1], and zero only for a zero count. */
  lemma Fraction(a: nat, b: nat)
    requires 0 < b && a <= b
    ensures 0.0 <= a as real / b as real <= 1.0
    ensures a as real / b as real == 0.0 <==> a == 0
  {
    var q := a as real / b as real;
    assert q * b as real == a as real;
  }

  /** The first point is at time 0 and the last at the horizon. */
  lemma TimeEnds(n: nat, horizon: real)
    requires n >= 2
    ensures TimeAt(0, n, horizon) == 0.0
    ensures TimeAt(n - 1, n, horizon) == horizon
  {
    assert (n - 1) as real / (n - 1) as real == 1.0;
  }

  /** The fields of a simulation result in terms of the cumulative payoffs. */
  lemma SimulationFields(bricks: seq<Brick>, s: MarketScenario, path: seq<real>)
    requires AllEvaluable(bricks) && 2 <= |path|
    ensures var r := SimulationOf(bricks, s, path);
      var cums := PrefixSums(StepPayoffs(bricks, path));
      && r.scenario == s
      && |r.payoffData| == |path|
      && (forall i :: 0 <= i < |path| ==> r.payoffData[i] == PointAt(bricks, s.parameters.timeHorizon, path, cums, i))
      && r.finalPayoff == cums[|path| - 1]
      && r.maxGain == MaxGain(cums)
      && r.maxDrawdown == MaxDrawdown(cums)
      && r.probabilityOfProfit == ProfitableCount(cums) as real / |path| as real
  {
  }

  /** The bounds every simulation result satisfies, whatever the graph and path. */
  lemma SimulationBounds(bricks: seq<Brick>, s: MarketScenario, path: seq<real>)
    requires AllEvaluable(bricks) && 2 <= |path|
    ensures var r := SimulationOf(bricks, s, path);
      && |r.payoffData| == |path|
      && r.maxGain >= 0.0 >= r.maxDrawdown
      && (forall i :: 0 <= i < |path| ==> r.maxDrawdown <= r.payoffData[i].cumulativePayoff <= r.maxGain)
      && (r.maxGain == 0.0 || exists i :: 0 <= i < |path| && r.payoffData[i].cumulativePayoff == r.maxGain)
      && (r.maxDrawdown == 0.0 || exists i :: 0 <= i < |path| && r.payoffData[i].cumulativePayoff == r.maxDrawdown)
      && 0.0 <= r.probabilityOfProfit <= 1.0
      && (r.probabilityOfProfit == 0.0 <==> forall i :: 0 <= i < |path| ==> r.payoffData[i].cumulativePayoff <= 0.0)
      && r.finalPayoff == r.payoffData[|path| - 1].cumulativePayoff
  {
    SimulationFields(bricks, s, path);
    var r := SimulationOf(bricks, s, path);
    var cums := PrefixSums(StepPayoffs(bricks, path));
    assert forall i :: 0 <= i < |path| ==> r.payoffData[i].cumulativePayoff == cums[i];
    var n := ProfitableCount(cums);
    Fraction(n, |path|);
    if r.maxGain != 0.0 {
      var i :| 0 <= i < |cums| && cums[i] == r.maxGain;
    }
    if r.maxDrawdown != 0.0 {
      var i :| 0 <= i < |cums| && cums[i] == r.maxDrawdown;
    }
  }

  /** Each point's cumulative payoff is the sum of the step payoffs up to and including it; times run from 0 to the horizon. */
  lemma PointsAccumulate(bricks: seq<Brick>, s: MarketScenario, path: seq<real>, i: nat)
    requires AllEvaluable(bricks) && 2 <= |path| && i < |path|
    ensures var r := SimulationOf(bricks, s, path);
      && r.payoffData[i].spotPrice == path[i]
      && r.payoffData[i].payoff == StepPayoff(bricks, path[i])
      && r.payoffData[i].cumulativePayoff == Total(StepPayoffs(bricks, path)[..i + 1])
      && r.payoffData[i].triggerEvents == TriggerEvents(bricks, path[i])
      && r.payoffData[0].time == 0.0
      && r.payoffData[|path| - 1].time == s.parameters.timeHorizon
  {
    SimulationFields(bricks, s, path);
    PrefixSumsAt(StepPayoffs(bricks, path), i);
    TimeEnds(|path|, s.parameters.timeHorizon);
  }

  /** A running total of zeros is zero throughout. */
  lemma {:induction false} ZeroPrefixSums(payoffs: seq<real>)
    requires forall i :: 0 <= i < |payoffs| ==> payoffs[i] == 0.0
    ensures forall i :: 0 <= i < |payoffs| ==> PrefixSums(payoffs)[i] == 0.0
    decreases |payoffs|
  {
    if |payoffs| > 0 {
      var init := payoffs[..|payoffs| - 1];
      ZeroPrefixSums(init);
      PrefixSumsAt(payoffs, |payoffs| - 1);
      ZeroTotal(payoffs);
    }
  }

  lemma {:induction false} ZeroTotal(payoffs: seq<real>)
    requires forall i :: 0 <= i < |payoffs| ==> payoffs[i] == 0.0
    ensures Total(payoffs) == 0.0
    decreases |payoffs|
  {
    if |payoffs| > 0 {
      ZeroTotal(payoffs[..|payoffs| - 1]);
    }
  }

  /** A graph without option bricks yields a flat zero result: no gain, no drawdown, no profit. */
  lemma NoOptionsFlatResult(bricks: seq<Brick>, s: MarketScenario, path: seq<real>)
    requires forall b :: b in bricks ==> !IsOption(b)
    requires 2 <= |path|
    ensures AllEvaluable(bricks)
    ensures var r := SimulationOf(bricks, s, path);
      && r.finalPayoff == 0.0 && r.maxGain == 0.0 && r.maxDrawdown == 0.0 && r.probabilityOfProfit == 0.0
      && forall i :: 0 <= i < |path| ==> r.payoffData[i].payoff == 0.0 && r.payoffData[i].cumulativePayoff == 0.0
  {
    NoOptionsZeroSteps(bricks, path);
    var cums := PrefixSums(StepPayoffs(bricks, path));
    SimulationFields(bricks, s, path);
    assert forall i :: 0 <= i < |cums| ==> cums[i] == 0.0;
    assert MaxGain(cums) == 0.0 && MaxDrawdown(cums) == 0.0;
    assert ProfitableCount(cums) == 0;
  }

  /** Without option bricks every step payoff and every cumulative payoff is 0. */
  lemma NoOptionsZeroSteps(bricks: seq<Brick>, path: seq<real>)
    requires forall b :: b in bricks ==> !IsOption(b)
    ensures AllEvaluable(bricks)
    ensures var ps := StepPayoffs(bricks, path);
      forall i :: 0 <= i < |path| ==> ps[i] == 0.0 && PrefixSums(ps)[i] == 0.0
  {
    var ps := StepPayoffs(bricks, path);
    forall i | 0 <= i < |path|
      ensures ps[i] == 0.0
    {
      NoOptionsNoPayoff(bricks, path[i]);
    }
    ZeroPrefixSums(ps);
  }
}

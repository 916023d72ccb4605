/**
 * The simulation engine: a price path generated step by step from normal
 * draws and then warped onto the target end price, a payoff per path point
 * summed over the graph's option bricks, trigger events per point, and the
 * running statistics of the cumulative payoff.
 *
 * The random normal draws, `Math.sqrt(dt)` and `Math.pow` are oracles: the
 * draws are a sequence, the square root a number, and `pow` any function.
 */
module Engine {
  import opened Wrappers
  import opened Seqs
  import opened Bricks
  import opened Scenarios

  function Max(a: real, b: real): real { if a >= b then a else b }
  function Min(a: real, b: real): real { if a <= b then a else b }
  function Abs(a: real): real { if a >= 0.0 then a else -a }

  /** The values the engine obtains from randomness and transcendental maths. */
  datatype Oracles = Oracles(normals: seq<real>, sqrtDt: real, pow: (real, real) -> real)

  /** The one fact about `Math.pow` the model relies on. */
  ghost predicate PowOfOneIsIdentity(pow: (real, real) -> real)
  {
    forall a: real :: pow(a, 1.0) == a
  }

  /** The floor every simulated step applies. */
  const PriceFloor: real := 0.01

  // ---------------------------------------------------------------------------
  // Price path

  /** One Euler step of geometric Brownian motion: drift `mu`, volatility `sigma`, draw `z`. */
  function GbmStep(mu: real, sigma: real, dt: real, sqrtDt: real, current: real, z: real): real
  {
    current * (mu * dt + sigma * sqrtDt * z)
  }

  /**
   * `priceChange` of one step, by scenario type; `custom` takes the default
   * branch. Every type is the same Brownian step: flat drops the drift and
   * volatile scales the volatility by 1.5.
   */
  function PriceChange(t: ScenarioType, p: ScenarioParameters, dt: real, sqrtDt: real, current: real, z: real): (r: real)
    ensures t == Flat ==> r == GbmStep(0.0, p.volatility, dt, sqrtDt, current, z)
    ensures t == Volatile ==> r == GbmStep(p.drift, 1.5 * p.volatility, dt, sqrtDt, current, z)
    ensures t != Flat && t != Volatile ==> r == GbmStep(p.drift, p.volatility, dt, sqrtDt, current, z)
  {
    match t
    case Uptrend => current * (p.drift * dt + p.volatility * sqrtDt * z)
    case Downtrend => current * (p.drift * dt + p.volatility * sqrtDt * z)
    case Flat => current * (p.volatility * sqrtDt * z)
    case Volatile => current * (p.drift * dt + p.volatility * sqrtDt * z * 1.5)
    case Custom => current * (p.drift * dt + p.volatility * sqrtDt * z)
  }

  function TimeStep(p: ScenarioParameters): real
    requires p.steps >= 1
  {
    p.timeHorizon / p.steps as real
  }

  /**
   * The first `n + 1` points of the walk before any rescaling: the start
   * price, then each step's price floored at 0.01.
   */
  function RawPath(t: ScenarioType, p: ScenarioParameters, o: Oracles, n: nat): (path: seq<real>)
    requires 1 <= p.steps && n <= |o.normals|
    ensures |path| == n + 1 && path[0] == p.startPrice
    ensures forall i :: 1 <= i < |path| ==> path[i] >= PriceFloor
  {
    if n == 0 then [p.startPrice]
    else
      var prev := RawPath(t, p, o, n - 1);
      var current := prev[n - 1];
      prev + [Max(PriceFloor, current + PriceChange(t, p, TimeStep(p), o.sqrtDt, current, o.normals[n - 1]))]
  }

  /** How far point `i` of an `n`-point path lies along it, from 0 at the start to 1 at the end. */
  function PathFraction(i: nat, n: nat): real
    requires n >= 2
  {
    i as real / (n - 1) as real
  }

  /** Index `i` of the rescaled path: `raw[i] * pow(endPrice / raw[last], i / (len - 1))`, index 0 untouched. */
  function RescaledAt(raw: seq<real>, endPrice: real, pow: (real, real) -> real, i: nat): real
    requires 2 <= |raw| && i < |raw| && raw[|raw| - 1] != 0.0
  {
    if i == 0 then raw[0]
    else raw[i] * pow(endPrice / raw[|raw| - 1], PathFraction(i, |raw|))
  }

  function Rescaled(raw: seq<real>, endPrice: real, pow: (real, real) -> real): (path: seq<real>)
    requires 2 <= |raw| && raw[|raw| - 1] != 0.0
    ensures |path| == |raw| && path[0] == raw[0]
  {
    seq(|raw|, i requires 0 <= i < |raw| => RescaledAt(raw, endPrice, pow, i))
  }

  /** One step of the rescale loop: point `i` times the adjustment's power is the rescaled point. */
  lemma RescaleStep(raw: seq<real>, endPrice: real, pow: (real, real) -> real, i: nat, adjustment: real, factor: real)
    requires 2 <= |raw| && 1 <= i < |raw| && raw[|raw| - 1] != 0.0
    requires adjustment == endPrice / raw[|raw| - 1] && factor == pow(adjustment, PathFraction(i, |raw|))
    ensures raw[i] * factor == RescaledAt(raw, endPrice, pow, i)
  {
  }

  /** A path that agrees with the rescaled points everywhere is the rescaled path. */
  lemma RescaledPointwise(raw: seq<real>, endPrice: real, pow: (real, real) -> real, path: seq<real>)
    requires 2 <= |raw| && raw[|raw| - 1] != 0.0 && |path| == |raw|
    requires forall k :: 0 <= k < |path| ==> path[k] == RescaledAt(raw, endPrice, pow, k)
    ensures path == Rescaled(raw, endPrice, pow)
  {
  }

  /** The rescaling applies exactly when an end price is given and the scenario is not `custom`. */
  predicate Retargets(s: MarketScenario)
  {
    s.parameters.endPrice.Some? && s.scenarioType != Custom
  }

  /** What `generatePricePath` returns for the given oracles. */
  function PricePath(s: MarketScenario, o: Oracles): (path: seq<real>)
    requires 1 <= s.parameters.steps <= |o.normals|
    ensures |path| == s.parameters.steps + 1 && path[0] == s.parameters.startPrice
  {
    var raw := RawPath(s.scenarioType, s.parameters, o, s.parameters.steps);
    if Retargets(s) then Rescaled(raw, s.parameters.endPrice.value, o.pow) else raw
  }

  // ---------------------------------------------------------------------------
  // Step payoff

  predicate IsOption(b: Brick) { b.category == OptionCategory }

  /** The property `key` holds exactly the value `v` (`properties.key === v`). */
  predicate PropEquals(b: Brick, key: string, v: PropValue) { key in b.properties && b.properties[key] == v }

  /** The numeric fields the payoff of an option brick reads are numbers (otherwise JavaScript yields NaN). */
  predicate Evaluable(b: Brick)
  {
    IsOption(b) ==>
      && (b.kind == VanillaOption ==> IsNum(b.properties, "strike") && IsNum(b.properties, "notional"))
      && (b.kind == DigitalOption ==> IsNum(b.properties, "strike") && IsNum(b.properties, "payoutAmount"))
  }

  predicate AllEvaluable(bricks: seq<Brick>) { forall b :: b in bricks ==> Evaluable(b) }

  /** A vanilla option: intrinsic value, negated when short, scaled by `notional / 1000`. */
  function VanillaPayoff(isCall: bool, isLong: bool, strike: real, notional: real, spot: real): (r: real)
    ensures (if isCall then spot <= strike else spot >= strike) ==> r == 0.0
    ensures (if isCall then spot > strike else spot < strike) ==>
      r == (if isLong then Abs(spot - strike) else -Abs(spot - strike)) * (notional / 1000.0)
    ensures notional >= 0.0 ==> (if isLong then r >= 0.0 else r <= 0.0)
  {
    var intrinsic := if isCall then Max(0.0, spot - strike) else Max(0.0, strike - spot);
    (if isLong then intrinsic else -intrinsic) * (notional / 1000.0)
  }

  /** A digital option: the payout when spot is at or beyond the strike on the barrier's side. */
  function DigitalPayoff(isAbove: bool, strike: real, payout: real, spot: real): (r: real)
    ensures isAbove ==> (spot >= strike ==> r == payout) && (spot < strike ==> r == 0.0)
    ensures !isAbove ==> (spot <= strike ==> r == payout) && (spot > strike ==> r == 0.0)
  {
    if (if isAbove then spot >= strike else spot <= strike) then payout else 0.0
  }

  /** The contribution of one option brick; option kinds other than vanilla and digital contribute 0. */
  function OptionPayoff(b: Brick, spot: real): (r: real)
    requires IsOption(b) && Evaluable(b)
    ensures b.kind != VanillaOption && b.kind != DigitalOption ==> r == 0.0
    ensures b.kind == VanillaOption ==>
      r == VanillaPayoff(PropEquals(b, "optionType", Str("call")), PropEquals(b, "position", Str("long")),
                         b.properties["strike"].n, b.properties["notional"].n, spot)
    ensures b.kind == DigitalOption ==>
      r == DigitalPayoff(PropEquals(b, "barrier", Str("above")), b.properties["strike"].n,
                         b.properties["payoutAmount"].n, spot)
  {
    match b.kind
    case VanillaOption =>
      VanillaPayoff(PropEquals(b, "optionType", Str("call")), PropEquals(b, "position", Str("long")),
                    b.properties["strike"].n, b.properties["notional"].n, spot)
    case DigitalOption =>
      DigitalPayoff(PropEquals(b, "barrier", Str("above")), b.properties["strike"].n, b.properties["payoutAmount"].n, spot)
    case _ => 0.0
  }

  /** The sum of the contributions of a list of option bricks, accumulated in list order. */
  function SumPayoffs(options: seq<Brick>, spot: real): real
    requires forall b :: b in options ==> IsOption(b) && Evaluable(b)
  {
    if |options| == 0 then 0.0
    else SumPayoffs(options[..|options| - 1], spot) + OptionPayoff(options[|options| - 1], spot)
  }

  /** The option bricks of a graph, in graph order. */
  function Options(bricks: seq<Brick>): (r: seq<Brick>)
    requires AllEvaluable(bricks)
    ensures forall b :: b in r ==> IsOption(b) && Evaluable(b)
  {
    Filter(bricks, IsOption)
  }

  /** What `calculateStepPayoff` returns at a spot price. */
  function StepPayoff(bricks: seq<Brick>, spot: real): (r: real)
    requires AllEvaluable(bricks)
    ensures Options(bricks) == [] ==> r == 0.0
    ensures |Options(bricks)| == 1 ==> r == OptionPayoff(Options(bricks)[0], spot)
  {
    var options := Options(bricks);
    assert |options| == 1 ==> options[..0] == [] && SumPayoffs(options[..0], spot) == 0.0;
    SumPayoffs(options, spot)
  }

  // ---------------------------------------------------------------------------
  // Trigger events

  predicate IsBarrierTrigger(b: Brick) { b.kind == BarrierTrigger }
  predicate IsAutocallTrigger(b: Brick) { b.kind == AutocallTrigger }

  /**
   * A numeric property, or `None` when it is missing or not a number. A trigger
   * whose level is `None` never fires here; JavaScript would compare a missing
   * level as NaN (never true) but coerce a numeric string, which is not modelled.
   */
  function NumberProp(b: Brick, key: string): (r: Option<real>)
    ensures r.Some? <==> IsNum(b.properties, key)
  {
    if IsNum(b.properties, key) then Some(b.properties[key].n) else None
  }

  /** A barrier trigger's condition: above is `>=`, below is `<=`, touch is within 0.01. */
  predicate BarrierHit(b: Brick, spot: real)
    ensures BarrierHit(b, spot) ==>
      IsNum(b.properties, "barrierLevel") && IsOneOf(b.properties, "triggerType", TriggerTypes)
    ensures PropEquals(b, "triggerType", Str("below")) && IsNum(b.properties, "barrierLevel") ==>
      (BarrierHit(b, spot) <==> spot <= b.properties["barrierLevel"].n)
    ensures PropEquals(b, "triggerType", Str("above")) && IsNum(b.properties, "barrierLevel") ==>
      (BarrierHit(b, spot) <==> spot >= b.properties["barrierLevel"].n)
    ensures PropEquals(b, "triggerType", Str("touch")) && IsNum(b.properties, "barrierLevel") ==>
      (BarrierHit(b, spot) <==> Abs(spot - b.properties["barrierLevel"].n) < 0.01)
  {
    var level := NumberProp(b, "barrierLevel");
    level.Some? &&
      (|| (PropEquals(b, "triggerType", Str("above")) && spot >= level.value)
       || (PropEquals(b, "triggerType", Str("below")) && spot <= level.value)
       || (PropEquals(b, "triggerType", Str("touch")) && Abs(spot - level.value) < 0.01))
  }

  function BarrierEventOf(b: Brick, spot: real): TriggerEvent
    requires BarrierHit(b, spot)
  {
    BarrierEvent(b.properties["triggerType"].s, b.properties["barrierLevel"].n)
  }

  /** The barrier events of a list of barrier triggers, in list order. */
  function BarrierEvents(triggers: seq<Brick>, spot: real): (events: seq<TriggerEvent>)
    ensures |events| <= |triggers|
    ensures forall e :: e in events ==> e.BarrierEvent?
  {
    if |triggers| == 0 then []
    else
      var last := triggers[|triggers| - 1];
      BarrierEvents(triggers[..|triggers| - 1], spot) + (if BarrierHit(last, spot) then [BarrierEventOf(last, spot)] else [])
  }

  predicate AutocallHit(b: Brick, spot: real)
    ensures AutocallHit(b, spot) ==> IsNum(b.properties, "autocallLevel") && spot >= b.properties["autocallLevel"].n
    ensures IsNum(b.properties, "autocallLevel") && spot >= b.properties["autocallLevel"].n ==> AutocallHit(b, spot)
  {
    var level := NumberProp(b, "autocallLevel");
    level.Some? && spot >= level.value
  }

  function AutocallEventOf(b: Brick): TriggerEvent
    requires IsNum(b.properties, "autocallLevel")
  {
    AutocallEvent(b.properties["autocallLevel"].n)
  }

  /** The autocall events of a list of autocall triggers, in list order. */
  function AutocallEvents(triggers: seq<Brick>, spot: real): (events: seq<TriggerEvent>)
    ensures |events| <= |triggers|
    ensures forall e :: e in events ==> e.AutocallEvent?
  {
    if |triggers| == 0 then []
    else
      var last := triggers[|triggers| - 1];
      AutocallEvents(triggers[..|triggers| - 1], spot)
        + (if AutocallHit(last, spot) then [AutocallEventOf(last)] else [])
  }

  /** What `detectTriggerEvents` returns: all barrier events, then all autocall events. */
  function TriggerEvents(bricks: seq<Brick>, spot: real): (events: seq<TriggerEvent>)
    ensures |events| <= |Filter(bricks, IsBarrierTrigger)| + |Filter(bricks, IsAutocallTrigger)|
    ensures forall i, j :: 0 <= i < j < |events| && events[j].BarrierEvent? ==> events[i].BarrierEvent?
  {
    var barrier := BarrierEvents(Filter(bricks, IsBarrierTrigger), spot);
    var autocall := AutocallEvents(Filter(bricks, IsAutocallTrigger), spot);
    assert forall k :: |barrier| <= k < |barrier| + |autocall| ==> (barrier + autocall)[k] in autocall;
    assert forall k :: 0 <= k < |barrier| ==> (barrier + autocall)[k] in barrier;
    barrier + autocall
  }

  // ---------------------------------------------------------------------------
  // Accumulated statistics

  /** The running total of a payoff series. */
  function Total(payoffs: seq<real>): real
  {
    if |payoffs| == 0 then 0.0 else Total(payoffs[..|payoffs| - 1]) + payoffs[|payoffs| - 1]
  }

  /** The cumulative payoff after each step. */
  function PrefixSums(payoffs: seq<real>): (cums: seq<real>)
    ensures |cums| == |payoffs|
  {
    if |payoffs| == 0 then [] else PrefixSums(payoffs[..|payoffs| - 1]) + [Total(payoffs)]
  }

  /** Each cumulative payoff is the total of the payoffs up to and including its step. */
  lemma {:induction false} PrefixSumsAt(payoffs: seq<real>, i: nat)
    requires i < |payoffs|
    ensures PrefixSums(payoffs)[i] == Total(payoffs[..i + 1])
    decreases |payoffs|
  {
    var n := |payoffs|;
    if i == n - 1 {
      assert payoffs[..i + 1] == payoffs;
    } else {
      PrefixSumsAt(payoffs[..n - 1], i);
      assert payoffs[..n - 1][..i + 1] == payoffs[..i + 1];
    }
  }

  /** `maxGain`: the running maximum of the cumulative payoffs, starting from 0. */
  function MaxGain(cums: seq<real>): (m: real)
    ensures m >= 0.0
    ensures forall i :: 0 <= i < |cums| ==> cums[i] <= m
    ensures m == 0.0 || m in cums
  {
    if |cums| == 0 then 0.0 else Max(MaxGain(cums[..|cums| - 1]), cums[|cums| - 1])
  }

  /** `maxDrawdown`: the running minimum of the cumulative payoffs, starting from 0. */
  function MaxDrawdown(cums: seq<real>): (m: real)
    ensures m <= 0.0
    ensures forall i :: 0 <= i < |cums| ==> m <= cums[i]
    ensures m == 0.0 || m in cums
  {
    if |cums| == 0 then 0.0 else Min(MaxDrawdown(cums[..|cums| - 1]), cums[|cums| - 1])
  }

  /** `profitableOutcomes`: how many cumulative payoffs are strictly positive. */
  function ProfitableCount(cums: seq<real>): (n: nat)
    ensures n <= |cums|
    ensures n == 0 <==> forall i :: 0 <= i < |cums| ==> cums[i] <= 0.0
  {
    if |cums| == 0 then 0
    else ProfitableCount(cums[..|cums| - 1]) + (if cums[|cums| - 1] > 0.0 then 1 else 0)
  }

  /** One more step of the running total. */
  lemma {:induction false} TotalStep(payoffs: seq<real>, cums: seq<real>, i: nat)
    requires i < |payoffs| && cums == PrefixSums(payoffs)
    ensures Total(payoffs[..i + 1]) == Total(payoffs[..i]) + payoffs[i]
    ensures cums[i] == Total(payoffs[..i + 1])
  {
    assert payoffs[..i + 1][..i] == payoffs[..i];
    PrefixSumsAt(payoffs, i);
  }

  /** One more step of the running maximum, minimum and count. */
  lemma {:induction false} StatsStep(cums: seq<real>, i: nat)
    requires i < |cums|
    ensures MaxGain(cums[..i + 1]) == Max(MaxGain(cums[..i]), cums[i])
    ensures MaxDrawdown(cums[..i + 1]) == Min(MaxDrawdown(cums[..i]), cums[i])
    ensures ProfitableCount(cums[..i + 1]) == ProfitableCount(cums[..i]) + (if cums[i] > 0.0 then 1 else 0)
  {
    assert cums[..i + 1][..i] == cums[..i];
  }

  /** The elapsed time at point `i` of a path of `n` points. */
  function TimeAt(i: nat, n: nat, horizon: real): real
    requires n >= 2
  {
    (i as real / (n - 1) as real) * horizon
  }

  /** The step payoff at every point of a path. */
  function StepPayoffs(bricks: seq<Brick>, path: seq<real>): (ps: seq<real>)
    requires AllEvaluable(bricks)
    ensures |ps| == |path|
    ensures forall i :: 0 <= i < |path| ==> ps[i] == StepPayoff(bricks, path[i])
  {
    seq(|path|, i requires 0 <= i < |path| => StepPayoff(bricks, path[i]))
  }

  /** The payoff point of step `i`, given the cumulative payoffs `cums`. */
  function PointAt(bricks: seq<Brick>, horizon: real, path: seq<real>, cums: seq<real>, i: nat): PayoffPoint
    requires AllEvaluable(bricks) && 2 <= |path| && |cums| == |path| && i < |path|
  {
    PayoffPoint(TimeAt(i, |path|, horizon), path[i], StepPayoff(bricks, path[i]), cums[i], TriggerEvents(bricks, path[i]))
  }

  /** What `simulate` returns once the path is fixed. */
  function SimulationOf(bricks: seq<Brick>, s: MarketScenario, path: seq<real>): (r: SimulationResult)
    requires AllEvaluable(bricks) && 2 <= |path|
    ensures r.scenario == s && |r.payoffData| == |path|
    ensures forall i :: 0 <= i < |path| ==> r.payoffData[i].spotPrice == path[i]
    ensures r.finalPayoff == r.payoffData[|path| - 1].cumulativePayoff
    ensures r.maxDrawdown <= 0.0 <= r.maxGain
  {
    var cums := PrefixSums(StepPayoffs(bricks, path));
    var h := s.parameters.timeHorizon;
    SimulationResult(
      s,
      seq(|path|, i requires 0 <= i < |path| => PointAt(bricks, h, path, cums, i)),
      cums[|cums| - 1],
      MaxDrawdown(cums),
      MaxGain(cums),
      ProfitableCount(cums) as real / |path| as real)
  }


  /** The first `i` payoff points, as `simulate` has pushed them so far. */
  predicate PointsSoFar(points: seq<PayoffPoint>, bricks: seq<Brick>, h: real, path: seq<real>, cums: seq<real>, i: nat)
    requires AllEvaluable(bricks) && 2 <= |path| && |cums| == |path| && i <= |path|
  {
    |points| == i && forall k :: 0 <= k < i ==> points[k] == PointAt(bricks, h, path, cums, k)
  }

  /** Pushing point `i` extends the points so far by one. */
  lemma PointsExtend(points: seq<PayoffPoint>, bricks: seq<Brick>, h: real, path: seq<real>, cums: seq<real>, i: nat,
                     point: PayoffPoint)
    requires AllEvaluable(bricks) && 2 <= |path| && |cums| == |path| && i < |path|
    requires PointsSoFar(points, bricks, h, path, cums, i) && point == PointAt(bricks, h, path, cums, i)
    ensures PointsSoFar(points + [point], bricks, h, path, cums, i + 1)
  {
  }

  /** Once every point is pushed, the totals and statistics of the whole series make up `SimulationOf`. */
  lemma SimulationAssembled(bricks: seq<Brick>, s: MarketScenario, path: seq<real>, points: seq<PayoffPoint>)
    requires AllEvaluable(bricks) && 2 <= |path|
    requires var cums := PrefixSums(StepPayoffs(bricks, path));
      PointsSoFar(points, bricks, s.parameters.timeHorizon, path, cums, |path|)
    ensures var cums := PrefixSums(StepPayoffs(bricks, path));
      SimulationOf(bricks, s, path)
      == SimulationResult(s, points, cums[|cums| - 1], MaxDrawdown(cums), MaxGain(cums),
                          ProfitableCount(cums) as real / |path| as real)
  {
  }

  // ---------------------------------------------------------------------------
  // The engine

  class SimulationEngine {
    const bricks: seq<Brick>
    /** Stored but never read by the engine. */
    const connections: seq<BrickConnection>

    constructor (bricks: seq<Brick>, connections: seq<BrickConnection>)
      ensures this.bricks == bricks && this.connections == connections
    {
      this.bricks := bricks;
      this.connections := connections;
    }

    /** `simulate`: one pass over the generated path. */
    method Simulate(scenario: MarketScenario, o: Oracles) returns (result: SimulationResult)
      requires 1 <= scenario.parameters.steps <= |o.normals|
      requires AllEvaluable(bricks)
      ensures result == SimulationOf(bricks, scenario, PricePath(scenario, o))
    {
      var parameters := scenario.parameters;
      var payoffData: seq<PayoffPoint> := [];
      var pricePath := GeneratePricePath(scenario, o);
      ghost var payoffs := StepPayoffs(bricks, pricePath);
      ghost var cums := PrefixSums(payoffs);

      var cumulativePayoff := 0.0;
      var maxGain := 0.0;
      var maxDrawdown := 0.0;
      var profitableOutcomes := 0;

      for i := 0 to |pricePath|
        invariant PointsSoFar(payoffData, bricks, parameters.timeHorizon, pricePath, cums, i)
        invariant cumulativePayoff == Total(payoffs[..i])
        invariant maxGain == MaxGain(cums[..i])
        invariant maxDrawdown == MaxDrawdown(cums[..i])
        invariant profitableOutcomes == ProfitableCount(cums[..i])
      {
        var time := TimeAt(i, |pricePath|, parameters.timeHorizon);
        var spotPrice := pricePath[i];
        TotalStep(payoffs, cums, i);
        StatsStep(cums, i);

        var stepPayoff := CalculateStepPayoff(spotPrice, time, scenario);
        cumulativePayoff := cumulativePayoff + stepPayoff;

        maxGain := Max(maxGain, cumulativePayoff);
        maxDrawdown := Min(maxDrawdown, cumulativePayoff);
        if cumulativePayoff > 0.0 {
          profitableOutcomes := profitableOutcomes + 1;
        }

        var events := DetectTriggerEvents(spotPrice, time);
        var point := PayoffPoint(time, spotPrice, stepPayoff, cumulativePayoff, events);
        assert stepPayoff == payoffs[i];
        assert cumulativePayoff == cums[i];
        assert events == TriggerEvents(bricks, spotPrice);
        assert point == PointAt(bricks, parameters.timeHorizon, pricePath, cums, i);
        PointsExtend(payoffData, bricks, parameters.timeHorizon, pricePath, cums, i, point);
        payoffData := payoffData + [point];
      }

      assert cums[..|pricePath|] == cums;
      PrefixSumsAt(payoffs, |pricePath| - 1);
      assert payoffs[..|pricePath|] == payoffs;
      SimulationAssembled(bricks, scenario, pricePath, payoffData);
      result := SimulationResult(scenario, payoffData, cumulativePayoff, maxDrawdown, maxGain,
                                 profitableOutcomes as real / |pricePath| as real);
    }

    /** `generatePricePath`: the floored walk, then the in-place rescale onto the end price. */
    method GeneratePricePath(scenario: MarketScenario, o: Oracles) returns (path: seq<real>)
      requires 1 <= scenario.parameters.steps <= |o.normals|
      ensures path == PricePath(scenario, o)
    {
      var p := scenario.parameters;
      var dt := TimeStep(p);
      path := [p.startPrice];
      var currentPrice := p.startPrice;

      for i := 1 to p.steps + 1
        invariant path == RawPath(scenario.scenarioType, p, o, i - 1)
        invariant currentPrice == path[i - 1]
      {
        var random := o.normals[i - 1];
        var priceChange := PriceChange(scenario.scenarioType, p, dt, o.sqrtDt, currentPrice, random);
        currentPrice := Max(PriceFloor, currentPrice + priceChange);
        path := path + [currentPrice];
      }

      if p.endPrice.Some? && scenario.scenarioType != Custom {
        path := Retarget(path, currentPrice, p.endPrice.value, o);
      }
    }

    /**
     * The rescale loop of `generatePricePath`: each point after the first is
     * multiplied in place by `pow(endPrice / last, i / steps)`.
     */
    method Retarget(raw: seq<real>, currentPrice: real, endPrice: real, o: Oracles) returns (path: seq<real>)
      requires 2 <= |raw| && currentPrice == raw[|raw| - 1] != 0.0
      ensures path == Rescaled(raw, endPrice, o.pow)
    {
      path := raw;
      var adjustment := endPrice / currentPrice;
      for i := 1 to |path|
        invariant |path| == |raw|
        invariant forall k :: 0 <= k < i ==> path[k] == RescaledAt(raw, endPrice, o.pow, k)
        invariant forall k :: i <= k < |path| ==> path[k] == raw[k]
      {
        var factor := o.pow(adjustment, PathFraction(i, |path|));
        RescaleStep(raw, endPrice, o.pow, i, adjustment, factor);
        path := path[i := path[i] * factor];
      }
      RescaledPointwise(raw, endPrice, o.pow, path);
    }

    /** `calculateStepPayoff`: the option bricks' contributions, accumulated in graph order. */
    method CalculateStepPayoff(spotPrice: real, time: real, scenario: MarketScenario) returns (totalPayoff: real)
      requires AllEvaluable(bricks)
      ensures totalPayoff == StepPayoff(bricks, spotPrice)
    {
      var options := Options(bricks);
      totalPayoff := 0.0;
      for i := 0 to |options|
        invariant totalPayoff == SumPayoffs(options[..i], spotPrice)
      {
        var option := options[i];
        assert option in options;
        assert options[..i + 1][..i] == options[..i];
        totalPayoff := totalPayoff + OptionPayoff(option, spotPrice);
      }
      assert options[..|options|] == options;
    }

    /** `detectTriggerEvents`: one event per triggered barrier, then one per triggered autocall. */
    method DetectTriggerEvents(spotPrice: real, time: real) returns (events: seq<TriggerEvent>)
      ensures events == TriggerEvents(bricks, spotPrice)
    {
      events := [];
      var barrierTriggers := Filter(bricks, IsBarrierTrigger);
      for i := 0 to |barrierTriggers|
        invariant events == BarrierEvents(barrierTriggers[..i], spotPrice)
      {
        var trigger := barrierTriggers[i];
        assert barrierTriggers[..i + 1][..i] == barrierTriggers[..i];
        if BarrierHit(trigger, spotPrice) {
          events := events + [BarrierEventOf(trigger, spotPrice)];
        }
      }
      assert barrierTriggers[..|barrierTriggers|] == barrierTriggers;

      ghost var barrierEvents := events;
      var autocallTriggers := Filter(bricks, IsAutocallTrigger);
      for i := 0 to |autocallTriggers|
        invariant events == barrierEvents + AutocallEvents(autocallTriggers[..i], spotPrice)
      {
        var trigger := autocallTriggers[i];
        assert autocallTriggers[..i + 1][..i] == autocallTriggers[..i];
        if AutocallHit(trigger, spotPrice) {
          events := events + [AutocallEventOf(trigger)];
        }
      }
      assert autocallTriggers[..|autocallTriggers|] == autocallTriggers;
    }
  }
}

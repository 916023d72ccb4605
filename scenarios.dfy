/** Market scenarios and simulation results. */
module Scenarios {
  import opened Wrappers

  /** The scenario `type` union: five values. */
  datatype ScenarioType = Uptrend | Downtrend | Flat | Volatile | Custom

  /**
   * The scenario parameters; only `endPrice` is optional. `timeHorizon` is in
   * years; `steps` is the number of simulated steps after the start point.
   */
  datatype ScenarioParameters = ScenarioParameters(
    startPrice: real,
    endPrice: Option<real>,
    volatility: real,
    drift: real,
    timeHorizon: real,
    steps: nat)

  datatype MarketScenario = MarketScenario(
    id: string,
    name: string,
    scenarioType: ScenarioType,
    parameters: ScenarioParameters,
    customPath: Option<seq<real>>)

  /** A trigger event; the source renders each as a descriptive string. */
  datatype TriggerEvent = BarrierEvent(triggerType: string, level: real) | AutocallEvent(level: real)

  /** One simulated step. */
  datatype PayoffPoint = PayoffPoint(
    time: real,
    spotPrice: real,
    payoff: real,
    cumulativePayoff: real,
    triggerEvents: seq<TriggerEvent>)

  /** The outcome of one run: every field is always present. */
  datatype SimulationResult = SimulationResult(
    scenario: MarketScenario,
    payoffData: seq<PayoffPoint>,
    finalPayoff: real,
    maxDrawdown: real,
    maxGain: real,
    probabilityOfProfit: real)
}

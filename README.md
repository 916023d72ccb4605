# Structured product playground: a verified model of its core

This project models the core of a browser application that assembles structured
financial products from "bricks":
- assets, options, logic, flow and math blocks wired into a graph;
- a Monte-Carlo-style path simulation run over such a graph.

The model covers:

- **The types** (`Bricks`, `Scenarios`).
  - The 5 categories, the 6 port types, input and output ports, the 25 brick kinds of the `AnyBrick` union, connections and product templates.
  - Property records are a map from key to a number, string, boolean or list value.
  - A per-kind shape predicate (`Bricks.HasShape`) states the key set and value types each brick interface declares, including the enumerated string unions.
  - Market scenarios, payoff points and simulation results are plain datatypes.
- **The brick catalog** (`Catalog`). `createBrickTemplate` becomes `Catalog.CreateBrickTemplate`:
  - the switch on the kind string (`ParseKind`, split along the switch's own asset, option, logic, flow and math groups);
  - a template per kind: category, ports and default properties;
  - `None` for every other string.
- **The product templates** (`Products`, `ProductProperties`).
  - The four builders, each as a function of the looked-up bricks (`SnowballNote`, `ReverseConvertible`, `TwinWinNote`, `Accumulator`).
  - The `create*` functions that look the bricks up and return `[]` when a lookup fails.
  - The connection literals and `getProductTemplates`.
- **The simulation engine** (`Engine`, `EngineProperties`, `ProductPayoffs`). A class `Engine.SimulationEngine` with the stored graph and four methods whose loops follow the source:
  - `Simulate`: the accumulation loop;
  - `GeneratePricePath`: the floored walk, then the in-place rescale (its loop in `Retarget`);
  - `CalculateStepPayoff`;
  - `DetectTriggerEvents`.

  Each method is proved equal to a recursive specification function (`SimulationOf`, `PricePath`, `StepPayoff`, `TriggerEvents`), and the properties are proved about those functions. Randomness and transcendental maths are oracles (`Engine.Oracles`):
  - a sequence of standard normal draws;
  - the value of `sqrt(dt)`;
  - a `pow` function.
- **The application store** (`Store`, `StoreProperties`). A class `Store.AppStore` with the eight state fields and one method per action.
  - Each method states the whole new state.
  - Lemmas prove the cascade and exactness of deletion, and that edits preserve graph well-formedness (unique ids, resolving endpoints, fan-in at most one).
  - `generateId` is a fresh-id parameter.
- **The property editor helpers** (`PropertyEditor`):
  - `formatPropertyName`, with the JavaScript `trim` white-space set;
  - `getSelectOptions`;
  - the property merge of `handlePropertyChange`;
  - the comma-list editor (`join(', ')` / `split(',').map(trim)`).

## Model

| member | source | states |
|---|---|---|
| Bricks.AllKindsComplete | src/types/bricks.ts:290-315 | the union has exactly 25 members and every kind is one of them |
| Catalog.CreateInput | src/bricks/brickTemplates.ts:3-9 | a created input port is `required` unless told otherwise and starts with `connected = false` |
| Catalog.ParseKind | src/bricks/brickTemplates.ts:20-417 | a recognised kind string is exactly that kind's `type` name |
| Catalog.Template | src/bricks/brickTemplates.ts:17-27 | every template has id `''`, position (0,0), the requested kind, that kind's category, and exactly one output |
| Catalog.CreateBrickTemplate | src/bricks/brickTemplates.ts:17-418 | a returned brick's `type` is the requested string, and it is that kind's template |
| Catalog.RecognisesEveryKind | src/bricks/brickTemplates.ts:20-414 | each of the 25 names is recognised and yields its own kind's template |
| Catalog.UnknownKindIsNone | src/bricks/brickTemplates.ts:416-417 | the result is `null` exactly for the strings that name no kind |
| Catalog.KindNameInjective | src/bricks/brickTemplates.ts:20-414 | distinct kinds have distinct case labels |
| Catalog.TemplateInputs | src/bricks/brickTemplates.ts:3-9 | every input of every template is required and unconnected, input ids are distinct within a brick, and exactly UnderlyingAsset, Bond and CouponSchedule have no inputs |
| Catalog.SeveralInputs | src/bricks/brickTemplates.ts:138-154 | only IfThenElse, CouponLogic, FinalPayout, Sum and Selector have several inputs, and their ids are distinct |
| Catalog.OptionPorts | src/bricks/brickTemplates.ts:55-136 | all five option kinds have the single `underlying` asset input and the `payoff` number output |
| Catalog.InputsOf | src/bricks/brickTemplates.ts:20-414 | at most three inputs per kind, with distinct ids, all required and unconnected; exactly the underlying asset, the bond and the coupon schedule have none; every option takes the single `underlying` asset input |
| Catalog.OutputOf | src/bricks/brickTemplates.ts:20-414 | every option's output is the number port `payoff`; the output is boolean exactly for the barrier and autocall triggers, the knock-in check, the target tracker, the observation and the comparison; it is `any` exactly for if-then-else and the coupon schedule |
| Catalog.DefaultsHaveShape | src/types/bricks.ts:32-287 | every kind's default properties have the keys and value types of its brick interface, enumerated strings included |
| Catalog.VanillaDefaults | src/bricks/brickTemplates.ts:63-69 | a vanilla option defaults to a long 4000 call, expiry 1Y, notional 1000 |
| Catalog.DigitalDefaults | src/bricks/brickTemplates.ts:80-85 | a digital option defaults to strike 4000, payout 100, expiry 1Y, barrier above |
| Catalog.PaletteAgreesWithCatalog | src/components/BrickCanvas/BrickPalette.tsx:21-27 | every name under a palette tab is recognised and yields a brick of that tab's category |
| Catalog.PaletteCoversCatalog | src/components/BrickCanvas/BrickPalette.tsx:21-27 | every kind is listed under the tab of its own category |
| Products.SnowballNote | src/bricks/productTemplates.ts:49-91 | the seven snowball ids in order; each brick keeps the kind, category and ports of the brick looked up for it; the coupon schedule, memory buffer and knock-in check keep their default records |
| Products.CreateSnowballNote | src/bricks/productTemplates.ts:35-92 | either the empty list (a failed lookup) or bricks carrying the seven snowball ids, in order |
| Products.CreateSnowballConnections | src/bricks/productTemplates.ts:94-131 | five connections, none from a brick to itself |
| Products.ReverseConvertible | src/bricks/productTemplates.ts:144-172 | the five reverse-convertible ids in order; each brick keeps the kind, category and ports of its looked-up brick; the underlying, coupon schedule and payout keep their default records |
| Products.CreateReverseConvertible | src/bricks/productTemplates.ts:134-173 | either the empty list (a failed lookup) or bricks carrying the five ids, in order |
| Products.CreateReverseConvertibleConnections | src/bricks/productTemplates.ts:175-198 | three connections, none from a brick to itself |
| Products.TwinWinNote | src/bricks/productTemplates.ts:211-237 | the four twin-win ids in order; each brick keeps the kind, category and ports of its looked-up brick; the underlying and the sum keep their default records |
| Products.CreateTwinWinNote | src/bricks/productTemplates.ts:201-238 | either the empty list (a failed lookup) or bricks carrying the four ids, in order |
| Products.CreateTwinWinConnections | src/bricks/productTemplates.ts:240-270 | four connections, none from a brick to itself |
| Products.Accumulator | src/bricks/productTemplates.ts:283-307 | the four accumulator ids in list order; each brick keeps the kind, category and ports of its looked-up brick; the underlying and the timer keep their default records |
| Products.CreateAccumulator | src/bricks/productTemplates.ts:273-308 | either the empty list (a failed lookup) or bricks carrying the four ids, in order |
| Products.CreateAccumulatorConnections | src/bricks/productTemplates.ts:310-326 | two connections, none from a brick to itself |
| Products.GetProductTemplates | src/bricks/productTemplates.ts:4-33 | exactly four templates (their ids and order: `ProductProperties.ProductOrder`) |
| Products.Placed | src/bricks/productTemplates.ts:49-91 | a placed copy keeps kind, category, ports and properties, with the fixed id and position |
| ProductProperties.SnowballBuilt | src/bricks/productTemplates.ts:35-92 | every lookup succeeds, so the snowball note is the builder applied to the catalog templates |
| ProductProperties.SnowballLookups | src/bricks/productTemplates.ts:36-42 | each of the seven snowball lookups returns its kind's catalog template, so the `null` guard never fires |
| ProductProperties.SnowballWellFormed | src/bricks/productTemplates.ts:83-131 | the seven snowball ids, in order; the graph has unique brick and connection ids, resolving endpoints and fan-in at most one |
| ProductProperties.SnowballNoteEndpoints | src/bricks/productTemplates.ts:94-131 | each of the five connections names a brick of the note and a port that brick has |
| ProductProperties.ReverseConvertibleBuilt | src/bricks/productTemplates.ts:134-173 | every lookup succeeds, so the reverse convertible is the builder applied to the catalog templates |
| ProductProperties.ReverseConvertibleWellFormed | src/bricks/productTemplates.ts:166-198 | the five ids, in order; unique ids, resolving endpoints, fan-in at most one |
| ProductProperties.ReverseConvertibleEndpoints | src/bricks/productTemplates.ts:175-198 | given bricks with the catalog's port ids, each of the three connections names a brick of the product and a port that brick has |
| ProductProperties.TwinWinBuilt | src/bricks/productTemplates.ts:201-238 | every lookup succeeds, so the twin win is the builder applied to the catalog templates |
| ProductProperties.TwinWinWellFormed | src/bricks/productTemplates.ts:232-270 | the four ids, in order; unique ids, resolving endpoints, fan-in at most one |
| ProductProperties.TwinWinEndpoints | src/bricks/productTemplates.ts:240-270 | given bricks with the catalog's port ids, each of the four connections names a brick of the product and a port that brick has |
| ProductProperties.TwinWinLegs | src/bricks/productTemplates.ts:218-230 | the call and the put are both long vanillas with strike 4000 and notional 1000 |
| ProductProperties.AccumulatorBuilt | src/bricks/productTemplates.ts:273-308 | every lookup succeeds, so the accumulator is the builder applied to the catalog templates |
| ProductProperties.AccumulatorWellFormed | src/bricks/productTemplates.ts:302-326 | the four ids, in order; unique ids, resolving endpoints, fan-in at most one |
| ProductProperties.AccumulatorEndpoints | src/bricks/productTemplates.ts:310-326 | given bricks with the catalog's port ids, both connections name a brick of the product and a port that brick has |
| ProductProperties.ProductOrder | src/bricks/productTemplates.ts:4-33 | exactly four templates: snowball-note, reverse-convertible, twin-win, accumulator |
| ProductProperties.ConfiguredRecordsReplaceDefaults | src/bricks/productTemplates.ts:78-81 | the catalog payout default has `cap`, but the snowball payout's record is replaced whole and has no `cap` |
| Engine.PriceChange | src/simulation/simulationEngine.ts:74-89 | a flat step is the GBM step with zero drift, a volatile step uses 1.5 times the volatility, and every other trend (uptrend, downtrend, custom) uses the scenario's drift and volatility |
| Engine.RawPath | src/simulation/simulationEngine.ts:63-93 | the walk has `steps + 1` points, starts at `startPrice`, and every later point is at least 0.01 |
| Engine.Rescaled | src/simulation/simulationEngine.ts:96-101 | rescaling keeps the length and leaves index 0 untouched |
| Engine.PricePath | src/simulation/simulationEngine.ts:60-105 | the path has `steps + 1` points and starts at `startPrice` |
| Engine.SimulationEngine.GeneratePricePath | src/simulation/simulationEngine.ts:60-105 | the push loop and the in-place rescale loop compute `PricePath` |
| Engine.VanillaPayoff | src/simulation/simulationEngine.ts:118-131 | 0 out of the money; in the money the intrinsic value, negated for a short position, times notional / 1000; a long position with a non-negative notional never pays less than 0, a short one never more |
| Engine.DigitalPayoff | src/simulation/simulationEngine.ts:133-140 | an `above` digital pays the payout at or above the strike and 0 below it; any other digital pays it at or below the strike and 0 above it |
| Engine.OptionPayoff | src/simulation/simulationEngine.ts:117-143 | a vanilla pays its vanilla payoff, a digital its digital payoff, and every other option kind 0 |
| Engine.StepPayoff | src/simulation/simulationEngine.ts:107-147 | with no option brick the step pays 0; with one it pays exactly that option's payoff |
| Engine.SimulationEngine.Retarget | src/simulation/simulationEngine.ts:96-102 | the rescale loop, multiplying each point after the first in place, computes `Rescaled` |
| Engine.SimulationEngine.CalculateStepPayoff | src/simulation/simulationEngine.ts:107-147 | the loop over the option bricks computes `StepPayoff`, their contributions summed in graph order |
| Engine.BarrierHit | src/simulation/simulationEngine.ts:155-160 | a hit needs a numeric level and a trigger type of above, below or touch; with a numeric level, `below` hits exactly at or under it, `above` exactly at or over it, and `touch` exactly within 0.01 of it |
| Engine.AutocallHit | src/simulation/simulationEngine.ts:167-169 | an autocall fires exactly when its level is a number and the spot is at or above it |
| Engine.TriggerEvents | src/simulation/simulationEngine.ts:149-175 | at most one event per barrier or autocall trigger, and no barrier event after an autocall event |
| Engine.SimulationEngine.DetectTriggerEvents | src/simulation/simulationEngine.ts:149-175 | the two loops compute `TriggerEvents`: barrier events, then autocall events |
| Engine.SimulationOf | src/simulation/simulationEngine.ts:12-58 | the result carries the scenario and one payoff point per path point, each at its path price; the final payoff is the last cumulative payoff; the maximum gain is at least 0 and the maximum drawdown at most 0 |
| Engine.SimulationEngine.Simulate | src/simulation/simulationEngine.ts:12-58 | the accumulation loop computes `SimulationOf` on the generated path |
| Engine.SimulationEngine.constructor | src/simulation/simulationEngine.ts:7-10 | stores the bricks and the connections |
| Engine.PrefixSumsAt | src/simulation/simulationEngine.ts:30 | each cumulative payoff is the total of the step payoffs up to and including it |
| Engine.MaxGain | src/simulation/simulationEngine.ts:19-33 | `maxGain` is at least 0 and every cumulative payoff; it is 0 or one of them |
| Engine.MaxDrawdown | src/simulation/simulationEngine.ts:20-34 | `maxDrawdown` is at most 0 and every cumulative payoff; it is 0 or one of them |
| Engine.ProfitableCount | src/simulation/simulationEngine.ts:36-38 | the count is at most the length, and 0 exactly when no cumulative payoff is positive |
| Engine.StatsStep | src/simulation/simulationEngine.ts:33-38 | one more step of the loop updates the running maximum, minimum and count as the loop body does |
| Engine.StepPayoffs | src/simulation/simulationEngine.ts:29 | one step payoff per path point, each `StepPayoff` at that point's price |
| Engine.SimulationAssembled | src/simulation/simulationEngine.ts:49-56 | once every point is pushed, the result's fields are the last prefix sum, the statistics and the profit ratio |
| EngineProperties.EndpointTargeting | src/simulation/simulationEngine.ts:96-101 | with an end price, a non-custom type and pow(a,1) = a, the last point is exactly the end price |
| EngineProperties.FloorWithoutTarget | src/simulation/simulationEngine.ts:91 | without rescaling, every point after the start is at least 0.01 |
| EngineProperties.RescaledPoints | src/simulation/simulationEngine.ts:98-101 | rescaled point i is the raw point times pow(endPrice / last, i / steps) |
| EngineProperties.TrendFormulasAgree | src/simulation/simulationEngine.ts:75-88 | downtrend and custom (the default branch) walk exactly as uptrend does |
| EngineProperties.FlatIsDriftFree | src/simulation/simulationEngine.ts:81-82 | a flat walk is an uptrend walk with zero drift |
| EngineProperties.VolatileScalesVolatility | src/simulation/simulationEngine.ts:84-85 | a volatile walk is an uptrend walk with 1.5 times the volatility |
| EngineProperties.CustomPathIgnored | src/simulation/simulationEngine.ts:60-105 | the generated path does not depend on `customPath` |
| EngineProperties.VanillaParity | src/simulation/simulationEngine.ts:123-128 | long call minus long put on one strike and notional is (S - K) * notional / 1000 |
| EngineProperties.ShortNegatesLong | src/simulation/simulationEngine.ts:127 | a short vanilla pays exactly the negation of the long one |
| EngineProperties.LongVanillaSign | src/simulation/simulationEngine.ts:123-128 | a long vanilla with a non-negative notional pays at least 0, and 0 out of the money |
| EngineProperties.DigitalThreshold | src/simulation/simulationEngine.ts:133-139 | a digital pays its payout exactly at or beyond the strike on its side, the strike included |
| EngineProperties.StepPayoffAppend | src/simulation/simulationEngine.ts:111-146 | the step payoff of two graphs side by side is the sum of their step payoffs |
| EngineProperties.SumPayoffsAppend | src/simulation/simulationEngine.ts:111-146 | the summed contribution of two runs of option bricks is the sum of their contributions |
| EngineProperties.NonOptionIgnored | src/simulation/simulationEngine.ts:111 | a brick outside the option category never changes the step payoff |
| EngineProperties.NoOptionsNoPayoff | src/simulation/simulationEngine.ts:113-146 | with no option brick the step payoff is 0 |
| EngineProperties.BarrierEventsExact | src/simulation/simulationEngine.ts:153-163 | one event per barrier trigger that is hit, in brick order, carrying its type and level |
| EngineProperties.BarrierEventTypes | src/simulation/simulationEngine.ts:158-161 | every barrier event names above, below or touch |
| EngineProperties.AutocallEventsExact | src/simulation/simulationEngine.ts:166-172 | one event per autocall trigger whose level is reached, in brick order, carrying its level |
| ProductPayoffs.BelowBarrierFires | src/simulation/simulationEngine.ts:153-163 | the snowball's barrier record reports a `below` event at 3200 exactly when the spot is at or below 3200 |
| ProductPayoffs.AutocallFires | src/simulation/simulationEngine.ts:166-172 | an autocall level of 4000 reports an event exactly when the spot is at or above 4000 |
| EngineProperties.NoTriggersNoEvents | src/simulation/simulationEngine.ts:149-175 | a graph without barrier or autocall triggers reports no event |
| EngineProperties.EventBound | src/simulation/simulationEngine.ts:149-175 | barrier events come before autocall events, and no trigger yields more than one event |
| EngineProperties.TimeEnds | src/simulation/simulationEngine.ts:25 | the first point is at time 0 and the last at the horizon |
| EngineProperties.SimulationFields | src/simulation/simulationEngine.ts:40-56 | one payoff point per path point; the final payoff is the last cumulative payoff |
| EngineProperties.SimulationBounds | src/simulation/simulationEngine.ts:19-57 | maxGain >= 0 >= maxDrawdown, both bound every cumulative payoff, and the profit probability lies in [0, 1] |
| EngineProperties.PointsAccumulate | src/simulation/simulationEngine.ts:24-46 | each point's cumulative payoff is the sum of the step payoffs so far, and its payoff and spot are those of its step |
| EngineProperties.NoOptionsFlatResult | src/simulation/simulationEngine.ts:19-57 | without option bricks the result is flat zero: no gain, no drawdown, probability 0 |
| ProductPayoffs.TwinWinStraddle | src/bricks/productTemplates.ts:201-238 | the twin win pays \|spot - 4000\| at every spot price |
| ProductPayoffs.TwinWinNotePayoff | src/bricks/productTemplates.ts:201-238 | whatever the looked-up bricks, the twin-win builder's two configured vanillas pay \|spot - 4000\| together |
| ProductPayoffs.StraddlePays | src/simulation/simulationEngine.ts:118-131 | a long call and a long put on 4000 with notional 1000 together pay \|spot - 4000\| |
| ProductPayoffs.ReverseConvertibleShortPut | src/bricks/productTemplates.ts:134-173 | the reverse convertible pays what a short put on 3200 pays: -max(0, 3200 - spot) |
| ProductPayoffs.ReverseConvertibleNotePayoff | src/bricks/productTemplates.ts:134-173 | whatever the looked-up bricks, the builder's configured vanilla is a short 3200 put, paying -max(0, 3200 - spot) |
| ProductPayoffs.SnowballUnpriced | src/bricks/productTemplates.ts:35-92 | the snowball note has no option brick, so it pays 0 per step |
| ProductPayoffs.SnowballNotePayoff | src/bricks/productTemplates.ts:35-92 | the snowball builder places no option brick, so any such note pays 0 per step |
| ProductPayoffs.SnowballTriggers | src/bricks/productTemplates.ts:66-76 | the snowball reports its barrier at or below 3200 and its autocall at or above 4000, in that order |
| ProductPayoffs.SnowballNoteEvents | src/bricks/productTemplates.ts:66-76 | whatever the looked-up triggers hold, the builder's configured levels report the barrier at or below 3200, then the autocall at or above 4000 |
| ProductPayoffs.AccumulatorUnpriced | src/bricks/productTemplates.ts:273-308 | the accumulator's only option is a range option, so it pays 0 per step |
| ProductPayoffs.AccumulatorNotePayoff | src/bricks/productTemplates.ts:273-308 | the builder's only option brick is a range option, which the engine does not price, so the note pays 0 per step |
| Store.AppStore.constructor | src/store/appStore.ts:36-46 | the initial state: empty canvas, nothing selected, no scenario or results, not simulating, both panels shown |
| Store.AppStore.AddBrick | src/store/appStore.ts:48-52 | appends one copy of the brick with the fresh id; all else unchanged |
| Store.AppStore.UpdateBrick | src/store/appStore.ts:54-60 | shallow-merges the update into every brick with that id; all else unchanged |
| Store.AppStore.DeleteBrick | src/store/appStore.ts:62-70 | removes the bricks with that id and the connections touching it, and clears the selection if it was that id |
| Store.AppStore.SelectBrick | src/store/appStore.ts:72-74 | sets the selection; all else unchanged |
| Store.AppStore.AddConnection | src/store/appStore.ts:76-80 | appends one copy of the connection with the fresh id, unchecked; all else unchanged |
| Store.AppStore.RemoveConnection | src/store/appStore.ts:82-86 | removes the connections with that id; bricks and all else unchanged |
| Store.AppStore.SetCurrentScenario | src/store/appStore.ts:88-90 | sets the scenario; all else unchanged |
| Store.AppStore.SetSimulationResults | src/store/appStore.ts:92-94 | sets the results; all else unchanged |
| Store.AppStore.SetIsSimulating | src/store/appStore.ts:96-98 | sets the flag; all else unchanged |
| Store.AppStore.ToggleInspector | src/store/appStore.ts:100-102 | negates the inspector flag, so two toggles restore it; all else unchanged |
| Store.AppStore.ToggleSimulation | src/store/appStore.ts:104-106 | negates the simulation-panel flag, so two toggles restore it; all else unchanged |
| Store.AppStore.ResetCanvas | src/store/appStore.ts:108-116 | empties bricks, connections and results, clears selection and scenario; `isSimulating` and the panels stay |
| Store.Merge | src/store/appStore.ts:57 | an empty update leaves the brick as it is; each field given is replaced and each field left out kept; an update that keeps id and ports keeps them |
| Store.Updated | src/store/appStore.ts:56-58 | the list keeps its length; bricks with another id are kept, and each brick with that id is the merge of the update into it |
| Store.WithoutBrick | src/store/appStore.ts:64 | a brick survives exactly when it was there and has another id |
| Store.WithoutTouching | src/store/appStore.ts:65-67 | a connection survives exactly when it was there and touches neither end at the id |
| Store.WithoutConnection | src/store/appStore.ts:84 | a connection survives exactly when it was there and has another id |
| Store.SelectionAfterDelete | src/store/appStore.ts:68 | the selection is cleared exactly when it was the deleted id, and kept otherwise |
| Store.MergeIdempotent | src/store/appStore.ts:57 | merging the same update twice is merging it once |
| StoreProperties.AddBrickPreservesGraph | src/store/appStore.ts:48-52 | adding under a fresh id keeps a well-formed graph well-formed |
| StoreProperties.UpdateAbsentIsNoop | src/store/appStore.ts:54-60 | updating an absent id changes nothing |
| StoreProperties.UpdateIdempotent | src/store/appStore.ts:54-60 | the same update applied twice is applied once |
| StoreProperties.UpdatePreservesGraph | src/store/appStore.ts:54-60 | an update that keeps ids and ports keeps the graph well-formed |
| StoreProperties.PropertyEditLands | src/store/appStore.ts:54-60 | a property update replaces the record of exactly the bricks with that id, and nothing else |
| StoreProperties.DeleteBrickExact | src/store/appStore.ts:64 | deletion drops every brick with the id and keeps every other brick with its multiplicity |
| StoreProperties.DeleteBrickCascade | src/store/appStore.ts:65-67 | exactly the connections touching the id go, the others keep their multiplicity, and no survivor touches the id |
| StoreProperties.DeleteKeepsOrder | src/store/appStore.ts:65-67 | surviving connections keep their relative order |
| StoreProperties.DeleteAbsentIsNoop | src/store/appStore.ts:62-70 | deleting an id nothing has or touches changes neither list |
| StoreProperties.DeleteBrickPreservesGraph | src/store/appStore.ts:62-70 | deletion keeps a well-formed graph well-formed: nothing is left dangling |
| StoreProperties.AddConnectionUnchecked | src/store/appStore.ts:76-80 | a connection whose endpoints do not resolve is still added, and the graph then dangles |
| StoreProperties.AddConnectionFanInUnchecked | src/store/appStore.ts:76-80 | a second connection into an occupied input port is still added, breaking fan-in |
| StoreProperties.AddConnectionPreservesGraph | src/store/appStore.ts:76-80 | a resolving connection with a fresh id into a free port keeps the graph well-formed |
| StoreProperties.RemoveConnectionExact | src/store/appStore.ts:84 | removal drops every connection with the id and keeps every other with its multiplicity |
| StoreProperties.RemoveAbsentIsNoop | src/store/appStore.ts:82-86 | removing an absent id changes nothing |
| StoreProperties.RemoveConnectionPreservesGraph | src/store/appStore.ts:82-86 | removal keeps the graph well-formed |
| StoreProperties.ResetIsWellFormed | src/store/appStore.ts:108-116 | the reset canvas is well-formed |
| PropertyEditor.Trim | src/components/InspectorPanel/PropertyEditor.tsx:130 | the trimmed string neither starts nor ends with white space |
| PropertyEditor.TrimCutsOnlySpace | src/components/InspectorPanel/PropertyEditor.tsx:130 | the trimmed string is a slice of the input, and everything cut before and after it is white space |
| PropertyEditor.TrimIdempotent | src/components/InspectorPanel/PropertyEditor.tsx:130 | trimming twice is trimming once |
| PropertyEditor.TrimFixes | src/components/InspectorPanel/PropertyEditor.tsx:130 | a string without leading or trailing white space is left as it is |
| PropertyEditor.ToUpper | src/components/InspectorPanel/PropertyEditor.tsx:129 | a lower-case ASCII letter becomes upper case; every other character is unchanged |
| PropertyEditor.CapitalizeFirst | src/components/InspectorPanel/PropertyEditor.tsx:129 | only the first character changes, to its upper case |
| PropertyEditor.InsertSpacesRemoved | src/components/InspectorPanel/PropertyEditor.tsx:128 | inserting spaces adds nothing but spaces |
| PropertyEditor.InsertSpacesCapitals | src/components/InspectorPanel/PropertyEditor.tsx:128 | every capital has a space right before it |
| PropertyEditor.FormatPropertyName | src/components/InspectorPanel/PropertyEditor.tsx:126-131 | the label neither starts nor ends with white space, and is no longer than the key with its capitals spaced out |
| PropertyEditor.FormattedNameIsTrimmed | src/components/InspectorPanel/PropertyEditor.tsx:126-131 | a formatted name has no leading or trailing white space |
| PropertyEditor.SpaceBeforeEveryCapital | src/components/InspectorPanel/PropertyEditor.tsx:126-131 | in a formatted name every capital after the first character follows a space |
| PropertyEditor.FormatCapitalKey | src/components/InspectorPanel/PropertyEditor.tsx:126-131 | for a space-free key starting with a capital, the label is the spaced-out key without its leading space |
| PropertyEditor.FormatOtherKey | src/components/InspectorPanel/PropertyEditor.tsx:126-131 | for a space-free key not starting with a capital, the label is the spaced-out key, capitalised |
| PropertyEditor.FormatRoundTrip | src/components/InspectorPanel/PropertyEditor.tsx:126-131 | deleting the spaces from the label of a space-free key gives the key with its first letter capitalised |
| PropertyEditor.GetSelectOptions | src/components/InspectorPanel/PropertyEditor.tsx:133-199 | choices exist exactly for the twelve table keys, with two to six choices each |
| PropertyEditor.SelectOptionsExactlyForKeys | src/components/InspectorPanel/PropertyEditor.tsx:133-198 | choices exist exactly for the twelve table keys; every other key that is not an inherited object member yields `null` |
| PropertyEditor.SelectOptionsIgnoreBrickType | src/components/InspectorPanel/PropertyEditor.tsx:133-198 | the choices do not depend on the brick type |
| PropertyEditor.OptionChoicesMatchUnions | src/components/InspectorPanel/PropertyEditor.tsx:135-156 | the option keys' choices are exactly the option interfaces' string unions, in order |
| PropertyEditor.LogicChoicesMatchUnions | src/components/InspectorPanel/PropertyEditor.tsx:157-176 | trigger type (above, below, touch), tracking and frequency choices are exactly their unions |
| PropertyEditor.MathChoicesMatchUnions | src/components/InspectorPanel/PropertyEditor.tsx:177-195 | operator, selection and unit choices are exactly their unions |
| PropertyEditor.ShapedStringsSelectable | src/components/InspectorPanel/PropertyEditor.tsx:56-75 | in a well-shaped record every string under a select key is one of the offered choices |
| PropertyEditor.DefaultsSelectable | src/components/InspectorPanel/PropertyEditor.tsx:56-75 | every catalog default under a select key is one of the offered choices |
| PropertyEditor.AssetHasNoSelects | src/components/InspectorPanel/PropertyEditor.tsx:133-198 | no property of an asset brick is edited through a select |
| PropertyEditor.EditedProperties | src/components/InspectorPanel/PropertyEditor.tsx:15-18 | the edited record maps the key to the new value and keeps every other key |
| PropertyEditor.PropertyChangeLands | src/components/InspectorPanel/PropertyEditor.tsx:13-19 | with unique brick ids, an edit sent through the store changes that one key of the edited brick and nothing else in the graph |
| PropertyEditor.SplitComma | src/components/InspectorPanel/PropertyEditor.tsx:93 | splitting yields at least one piece, and no piece holds a comma |
| PropertyEditor.SplitCommaFree | src/components/InspectorPanel/PropertyEditor.tsx:93 | a text with no comma splits into itself alone |
| PropertyEditor.SplitCommaAppend | src/components/InspectorPanel/PropertyEditor.tsx:93 | a comma-free text, a comma, then the rest split into that text followed by the pieces of the rest |
| PropertyEditor.Join | src/components/InspectorPanel/PropertyEditor.tsx:92 | the first item starts the text, `", "` follows it when there are several items, and one comma-free item gives a comma-free text |
| PropertyEditor.EditList | src/components/InspectorPanel/PropertyEditor.tsx:93 | one item per comma-separated piece, each the trimmed piece, and each editable: comma-free and its own trim |
| PropertyEditor.EditListCorrected | src/components/InspectorPanel/PropertyEditor.tsx:92-93 | the intended editor keeps at most one item per piece, only non-empty editable items, and every non-empty item the editor as written stores |
| PropertyEditor.CorrectedEmptyBox | src/components/InspectorPanel/PropertyEditor.tsx:92-93 | the intended editor stores an empty box as the empty list |
| PropertyEditor.SplitJoined | src/components/InspectorPanel/PropertyEditor.tsx:92-93 | splitting a prefix followed by a joined list yields the prefix glued to the first item, then each later item behind one space |
| PropertyEditor.ListRoundTrip | src/components/InspectorPanel/PropertyEditor.tsx:92-93 | a non-empty list of comma-free, trimmed items is shown and read back unchanged |
| PropertyEditor.EmptyListDoesNotRoundTrip | src/components/InspectorPanel/PropertyEditor.tsx:92-93 | an empty list is shown as an empty box and read back as one empty item |
| PropertyEditor.CorrectedListRoundTrip | src/components/InspectorPanel/PropertyEditor.tsx:92-93 | with empty pieces dropped, every list of non-empty editable items, the empty list included, round-trips; empty pieces in the middle of a text (`a,,b`) are dropped too |

## Left out

- Randomness and transcendental maths (`boxMullerRandom`, `Math.random`, `Math.log`, `Math.cos`, `Math.sqrt`, `Math.pow`) are parameters (`Engine.Oracles`). Nothing is assumed about the draws. The only assumption about `pow` is pow(a, 1) = a, where the end-point property needs it. The source does not redraw when the first uniform is 0, so neither does the model.
- Floating point: prices, payoffs and times are `real`, so rounding, NaN and infinities are not modelled.
- Engine.SimulationEngine.Simulate: requires `steps >= 1`, because the source divides 0 by 0 for the time of a one-point path.
- Engine.SimulationEngine.CalculateStepPayoff: requires `strike`, `notional` and `payoutAmount` to be numbers on the option bricks that read them. A field that is not a number is not modelled: the source coerces a numeric string strike, concatenates a string payout onto the running total, and yields NaN for anything else.
- Engine.BarrierHit: a level that is not a number never fires. A missing level compares as NaN in the source, so it never fires there either; a numeric string level would be coerced and compared, which is not modelled.
- Engine.AutocallHit: likewise, a level that is not a number never fires, so a numeric string level is not coerced as it is in the source.
- Engine.SimulationEngine.Simulate: `async` with no `await`, modelled as synchronous.
- The engine never reads the stored connections. It also ignores `time`, `scenario` and the filtered `underlyingAssets` in the step payoff, so the model has no dataflow evaluation either.
- Engine.PricePath: the rescale is not floored, so a rescaled point can fall below 0.01. Only the unrescaled walk is proved floored. `customPath` is never read.
- Port-type compatibility is not asserted. The templates connect a boolean `autocall` output to a number `finalPrice` input (src/bricks/productTemplates.ts:119-122), a number `value` to a boolean `knockedIn` (192-197), and a number `price` to an asset `underlying` (180-182).
- No code path sets `connected` to true, so the model has none either.
- `generateId` is a fresh-id parameter of `AddBrick` and `AddConnection`. The uniqueness of random strings is not modelled. The preservation lemmas take freshness as a precondition.
- Store.AppStore.UpdateBrick: an update whose field is explicitly `undefined` (as opposed to absent) is not modelled. An update field is either present with a value or absent.
- Template loading, persistence and all React rendering are not part of this model. The palette's kind table appears only as data, to check it against the catalog.
- `parseFloat(...) || 0` input coercion and the number-to-string conversion of number lists in the list editor (`join` of numbers) are not modelled. The list editor is modelled on string lists.
- PropertyEditor.CapitalizeFirst: `toUpperCase` is modelled for ASCII letters only. `[A-Z]` in the regular expression is ASCII by definition.
- PropertyEditor.PropertyChangeLands: the editor merges into the properties of the brick it rendered. The model takes the brick's current record, which is the same whenever the rendered brick is current.
- Property records are maps from key to value. The typed interfaces become a shape predicate (`Bricks.HasShape`) rather than 25 record types, because templates replace records wholesale with records missing typed fields (the snowball payout has no `cap`).
- PropertyEditor.GetSelectOptions: `options[key] || null` also returns the members every object inherits (`constructor`, `toString`, `valueOf`, `__proto__`, ...). For such a key the editor would try to render a function or an object as a choice list and fail. The model has only the twelve table keys and treats every other key as absent.
- The optional `value?: any` field of input and output ports (src/types/bricks.ts:21 and 28) is never set by the catalog or read by the engine, so ports are modelled without it.
- Trigger events are datatypes. The source renders each as a string; that formatting is not modelled.

## Findings

| source | as written | input that shows it | evidently intended | confidence | as-written member | corrected member |
|---|---|---|---|---|---|---|
| src/components/InspectorPanel/PropertyEditor.tsx:92-93 | the list editor shows a list as `join(', ')` and stores `split(',').map(trim)`; `''.split(',')` is `['']` | an empty list is shown as an empty box; clearing a box (or editing an empty list) stores `['']`, a list with one empty item | an empty box stores the empty list, so every list of non-empty editable items round-trips | medium, not executed | PropertyEditor.EmptyListDoesNotRoundTrip | PropertyEditor.CorrectedListRoundTrip |

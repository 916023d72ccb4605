/**
 * The brick graph data model: categories, typed ports, the 25 brick kinds,
 * bricks, connections and product templates, together with the structural
 * well-formedness predicates a graph of bricks is expected to satisfy.
 */
module Bricks {
  import opened Wrappers

  /** `BrickCategory`: exactly five coarse tags. */
  datatype Category = AssetCategory | OptionCategory | LogicCategory | FlowCategory | MathCategory

  /** The semantic type of a port; inputs and outputs draw from the same six values. */
  datatype PortType = NumberPort | BooleanPort | AssetPort | OptionPort | TriggerPort | AnyPort

  /** An input port. `connected` is optional in the source, hence the `Option`. */
  datatype BrickInput = BrickInput(id: string, name: string, portType: PortType, required: bool, connected: Option<bool>)

  /** An output port: no `required` and no `connected` flag. */
  datatype BrickOutput = BrickOutput(id: string, name: string, portType: PortType)

  /** A layout coordinate; irrelevant to evaluation. */
  datatype Position = Position(x: real, y: real)

  /** A property value: number, string, boolean, or a list of strings or numbers. */
  datatype PropValue = Num(n: real) | Str(s: string) | Bool(b: bool) | StrList(items: seq<string>) | NumList(nums: seq<real>)

  type Properties = map<string, PropValue>

  /** The discriminant of the `AnyBrick` union: exactly 25 kinds. */
  datatype BrickKind =
    | UnderlyingAsset | Bond
    | VanillaOption | DigitalOption | BarrierOption | LookbackOption | RangeOption
    | IfThenElse | BarrierTrigger | AutocallTrigger | KnockInCheck | MemoryBuffer
    | HighWatermarkTracker | TargetTracker | Observation
    | CouponSchedule | CouponLogic | FinalPayout | AutocallHandler | CouponAccumulator
    | Sum | Multiplier | Compare | Selector | Timer

  /** The `type` string of each kind. */
  function KindName(k: BrickKind): string
  {
    match k
    case UnderlyingAsset => "UnderlyingAsset"
    case Bond => "Bond"
    case VanillaOption => "VanillaOption"
    case DigitalOption => "DigitalOption"
    case BarrierOption => "BarrierOption"
    case LookbackOption => "LookbackOption"
    case RangeOption => "RangeOption"
    case IfThenElse => "IfThenElse"
    case BarrierTrigger => "BarrierTrigger"
    case AutocallTrigger => "AutocallTrigger"
    case KnockInCheck => "KnockInCheck"
    case MemoryBuffer => "MemoryBuffer"
    case HighWatermarkTracker => "HighWatermarkTracker"
    case TargetTracker => "TargetTracker"
    case Observation => "Observation"
    case CouponSchedule => "CouponSchedule"
    case CouponLogic => "CouponLogic"
    case FinalPayout => "FinalPayout"
    case AutocallHandler => "AutocallHandler"
    case CouponAccumulator => "CouponAccumulator"
    case Sum => "Sum"
    case Multiplier => "Multiplier"
    case Compare => "Compare"
    case Selector => "Selector"
    case Timer => "Timer"
  }

  /** All 25 kinds, in the order the union lists them. */
  const AllKinds: seq<BrickKind> := [
    UnderlyingAsset, Bond,
    VanillaOption, DigitalOption, BarrierOption, LookbackOption, RangeOption,
    IfThenElse, BarrierTrigger, AutocallTrigger, KnockInCheck, MemoryBuffer,
    HighWatermarkTracker, TargetTracker, Observation,
    CouponSchedule, CouponLogic, FinalPayout, AutocallHandler, CouponAccumulator,
    Sum, Multiplier, Compare, Selector, Timer]

  /** The category each brick interface pins. */
  function CategoryOf(k: BrickKind): Category
  {
    match k
    case UnderlyingAsset | Bond => AssetCategory
    case VanillaOption | DigitalOption | BarrierOption | LookbackOption | RangeOption => OptionCategory
    case IfThenElse | BarrierTrigger | AutocallTrigger | KnockInCheck | MemoryBuffer
       | HighWatermarkTracker | TargetTracker | Observation => LogicCategory
    case CouponSchedule | CouponLogic | FinalPayout | AutocallHandler | CouponAccumulator => FlowCategory
    case Sum | Multiplier | Compare | Selector | Timer => MathCategory
  }

  /**
   * A brick. `kind` is the union's `type` field; `category` is stored, as in the
   * source, because a shallow update may overwrite it independently of `kind`.
   */
  datatype Brick = Brick(
    id: string,
    kind: BrickKind,
    category: Category,
    position: Position,
    inputs: seq<BrickInput>,
    outputs: seq<BrickOutput>,
    properties: Properties)

  /** A directed edge between two (brick id, port id) endpoints; it carries no type information. */
  datatype BrickConnection = BrickConnection(id: string, sourceId: string, targetId: string, sourceOutputId: string, targetInputId: string)

  /** A named, fixed graph of bricks and connections. */
  datatype ProductTemplate = ProductTemplate(id: string, name: string, description: string, bricks: seq<Brick>, connections: seq<BrickConnection>)

  // ---------------------------------------------------------------------------
  // Enumerated property values, as the string unions of the brick interfaces give them.

  const OptionTypes: seq<string> := ["call", "put"]
  const OptionPositions: seq<string> := ["long", "short"]
  const BarrierTypes: seq<string> := ["up-and-out", "up-and-in", "down-and-out", "down-and-in"]
  const DigitalBarriers: seq<string> := ["above", "below"]
  const LookbackTypes: seq<string> := ["fixed", "floating"]
  const TriggerTypes: seq<string> := ["above", "below", "touch"]
  const TrackingTypes: seq<string> := ["maximum", "minimum"]
  const Frequencies: seq<string> := ["monthly", "quarterly", "semi-annually", "annually"]
  const ResetFrequencies: seq<string> := ["daily", "monthly", "quarterly"]
  const Operators: seq<string> := ["GT", "LT", "EQ", "GTE", "LTE", "NEQ"]
  const SelectionTypes: seq<string> := ["best", "worst", "median", "random"]
  const TimeUnits: seq<string> := ["days", "months", "years"]

  // ---------------------------------------------------------------------------
  // The property shape of each brick interface.

  predicate IsNum(p: Properties, key: string) { key in p && p[key].Num? }
  predicate IsStr(p: Properties, key: string) { key in p && p[key].Str? }
  predicate IsBool(p: Properties, key: string) { key in p && p[key].Bool? }
  predicate IsStrList(p: Properties, key: string) { key in p && p[key].StrList? }
  predicate IsNumList(p: Properties, key: string) { key in p && p[key].NumList? }
  predicate IsOneOf(p: Properties, key: string, values: seq<string>) { key in p && p[key].Str? && p[key].s in values }
  predicate NumIfPresent(p: Properties, key: string) { key in p ==> p[key].Num? }
  predicate StrIfPresent(p: Properties, key: string) { key in p ==> p[key].Str? }

  /** The key set and value types of a kind's `properties`, optional fields included. */
  predicate HasShape(k: BrickKind, p: Properties)
  {
    match k
    case UnderlyingAsset =>
      p.Keys == {"symbol", "currentPrice", "volatility", "dividendYield"}
      && IsStr(p, "symbol") && IsNum(p, "currentPrice") && IsNum(p, "volatility") && IsNum(p, "dividendYield")
    case Bond =>
      p.Keys == {"faceValue", "couponRate", "maturity", "yieldToMaturity"}
      && IsNum(p, "faceValue") && IsNum(p, "couponRate") && IsStr(p, "maturity") && IsNum(p, "yieldToMaturity")
    case VanillaOption =>
      p.Keys == {"optionType", "position", "strike", "expiry", "notional"}
      && IsOneOf(p, "optionType", OptionTypes) && IsOneOf(p, "position", OptionPositions)
      && IsNum(p, "strike") && IsStr(p, "expiry") && IsNum(p, "notional")
    case DigitalOption =>
      p.Keys == {"strike", "payoutAmount", "expiry", "barrier"}
      && IsNum(p, "strike") && IsNum(p, "payoutAmount") && IsStr(p, "expiry") && IsOneOf(p, "barrier", DigitalBarriers)
    case BarrierOption =>
      p.Keys == {"optionType", "barrierType", "strike", "barrier", "expiry", "notional"}
      && IsOneOf(p, "optionType", OptionTypes) && IsOneOf(p, "barrierType", BarrierTypes)
      && IsNum(p, "strike") && IsNum(p, "barrier") && IsStr(p, "expiry") && IsNum(p, "notional")
    case LookbackOption =>
      {"lookbackType", "expiry", "notional"} <= p.Keys <= {"lookbackType", "strike", "expiry", "notional"}
      && IsOneOf(p, "lookbackType", LookbackTypes) && NumIfPresent(p, "strike") && IsStr(p, "expiry") && IsNum(p, "notional")
    case RangeOption =>
      p.Keys == {"lowerBound", "upperBound", "payoutPerDay", "expiry"}
      && IsNum(p, "lowerBound") && IsNum(p, "upperBound") && IsNum(p, "payoutPerDay") && IsStr(p, "expiry")
    case IfThenElse =>
      p.Keys == {"condition"} && IsStr(p, "condition")
    case BarrierTrigger =>
      p.Keys == {"barrierLevel", "triggerType", "continuous"}
      && IsNum(p, "barrierLevel") && IsOneOf(p, "triggerType", TriggerTypes) && IsBool(p, "continuous")
    case AutocallTrigger =>
      p.Keys == {"autocallLevel", "observationDates", "callable"}
      && IsNum(p, "autocallLevel") && IsStrList(p, "observationDates") && IsBool(p, "callable")
    case KnockInCheck =>
      p.Keys == {"knockInLevel", "activated"} && IsNum(p, "knockInLevel") && IsBool(p, "activated")
    case MemoryBuffer =>
      p.Keys == {"storedCoupons", "maxBuffer"} && IsNumList(p, "storedCoupons") && IsNum(p, "maxBuffer")
    case HighWatermarkTracker =>
      {"trackingType", "currentValue"} <= p.Keys <= {"trackingType", "currentValue", "resetCondition"}
      && IsOneOf(p, "trackingType", TrackingTypes) && IsNum(p, "currentValue") && StrIfPresent(p, "resetCondition")
    case TargetTracker =>
      p.Keys == {"targetAmount", "currentAccumulated", "resetOnTarget"}
      && IsNum(p, "targetAmount") && IsNum(p, "currentAccumulated") && IsBool(p, "resetOnTarget")
    case Observation =>
      p.Keys == {"observationDates", "condition", "result"}
      && IsStrList(p, "observationDates") && IsStr(p, "condition") && IsBool(p, "result")
    case CouponSchedule =>
      p.Keys == {"paymentDates", "observationDates", "frequency"}
      && IsStrList(p, "paymentDates") && IsStrList(p, "observationDates") && IsOneOf(p, "frequency", Frequencies)
    case CouponLogic =>
      p.Keys == {"couponRate", "conditional", "condition", "memory"}
      && IsNum(p, "couponRate") && IsBool(p, "conditional") && IsStr(p, "condition") && IsBool(p, "memory")
    case FinalPayout =>
      {"protectionLevel", "participationRate"} <= p.Keys <= {"protectionLevel", "participationRate", "cap", "floor"}
      && IsNum(p, "protectionLevel") && IsNum(p, "participationRate") && NumIfPresent(p, "cap") && NumIfPresent(p, "floor")
    case AutocallHandler =>
      p.Keys == {"autocallAmount", "couponPayment", "callCondition"}
      && IsNum(p, "autocallAmount") && IsNum(p, "couponPayment") && IsStr(p, "callCondition")
    case CouponAccumulator =>
      p.Keys == {"dailyRate", "condition", "resetFrequency"}
      && IsNum(p, "dailyRate") && IsStr(p, "condition") && IsOneOf(p, "resetFrequency", ResetFrequencies)
    case Sum =>
      p.Keys == {"inputCount"} && IsNum(p, "inputCount")
    case Multiplier =>
      p.Keys == {"factor"} && IsNum(p, "factor")
    case Compare =>
      p.Keys == {"operator", "threshold"} && IsOneOf(p, "operator", Operators) && IsNum(p, "threshold")
    case Selector =>
      p.Keys == {"selectionType", "assetCount"} && IsOneOf(p, "selectionType", SelectionTypes) && IsNum(p, "assetCount")
    case Timer =>
      {"startEvent", "elapsedTime", "units"} <= p.Keys <= {"startEvent", "endEvent", "elapsedTime", "units"}
      && IsStr(p, "startEvent") && StrIfPresent(p, "endEvent") && IsNum(p, "elapsedTime") && IsOneOf(p, "units", TimeUnits)
  }

  // ---------------------------------------------------------------------------
  // Structural well-formedness of a graph (bricks plus connections).

  /** No two bricks share an id. */
  predicate UniqueBrickIds(bricks: seq<Brick>)
  {
    forall i, j :: 0 <= i < j < |bricks| ==> bricks[i].id != bricks[j].id
  }

  /** No two connections share an id. */
  predicate UniqueConnectionIds(conns: seq<BrickConnection>)
  {
    forall i, j :: 0 <= i < j < |conns| ==> conns[i].id != conns[j].id
  }

  /** Some brick called `brickId` has an output port called `portId`. */
  predicate HasOutputPort(bricks: seq<Brick>, brickId: string, portId: string)
  {
    exists i, k :: 0 <= i < |bricks| && 0 <= k < |bricks[i].outputs|
                   && bricks[i].id == brickId && bricks[i].outputs[k].id == portId
  }

  /** Some brick called `brickId` has an input port called `portId`. */
  predicate HasInputPort(bricks: seq<Brick>, brickId: string, portId: string)
  {
    exists i, k :: 0 <= i < |bricks| && 0 <= k < |bricks[i].inputs|
                   && bricks[i].id == brickId && bricks[i].inputs[k].id == portId
  }

  /** The connection's source is an output, and its target an input, of bricks of the graph. */
  predicate Resolves(bricks: seq<Brick>, c: BrickConnection)
  {
    HasOutputPort(bricks, c.sourceId, c.sourceOutputId) && HasInputPort(bricks, c.targetId, c.targetInputId)
  }

  /** No connection dangles. */
  predicate EndpointsResolve(bricks: seq<Brick>, conns: seq<BrickConnection>)
  {
    forall i :: 0 <= i < |conns| ==> Resolves(bricks, conns[i])
  }

  /** The connection mentions brick `id` at either end. */
  predicate Touches(c: BrickConnection, id: string)
  {
    c.sourceId == id || c.targetId == id
  }

  /** No input port is the target of two connections. */
  predicate FanInAtMostOne(conns: seq<BrickConnection>)
  {
    forall i, j :: 0 <= i < j < |conns| ==>
      conns[i].targetId != conns[j].targetId || conns[i].targetInputId != conns[j].targetInputId
  }

  /** All four structural invariants at once. */
  predicate WellFormedGraph(bricks: seq<Brick>, conns: seq<BrickConnection>)
  {
    UniqueBrickIds(bricks) && UniqueConnectionIds(conns) && EndpointsResolve(bricks, conns) && FanInAtMostOne(conns)
  }

  /** The union has exactly 25 members and every kind is among them. */
  lemma AllKindsComplete(k: BrickKind)
    ensures |AllKinds| == 25 && k in AllKinds
  {
  }
}

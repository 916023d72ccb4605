/**
 * The brick catalog: a total map from a kind string to a fresh brick with the
 * kind's fixed ports and default properties, or `None` for an unknown kind.
 */
module Catalog {
  import opened Wrappers
  import opened Bricks

  /** An input port as the catalog creates it: `required` defaults to true and `connected` starts false. */
  function CreateInput(id: string, name: string, portType: PortType, required: bool := true): (p: BrickInput)
    ensures p.id == id && p.portType == portType && p.required == required && p.connected == Some(false)
  {
    BrickInput(id, name, portType, required, Some(false))
  }

  function CreateOutput(id: string, name: string, portType: PortType): BrickOutput
  {
    BrickOutput(id, name, portType)
  }

  /**
   * The `switch (type)` dispatch: which of the 25 case labels, if any, `t` is.
   * The labels are tried group by group, in the order the switch lists them.
   */
  function ParseKind(t: string): (r: Option<BrickKind>)
    ensures r.Some? ==> KindName(r.value) == t
  {
    if ParseAssetKind(t).Some? then ParseAssetKind(t)
    else if ParseOptionKind(t).Some? then ParseOptionKind(t)
    else if ParseLogicKind(t).Some? then ParseLogicKind(t)
    else if ParseFlowKind(t).Some? then ParseFlowKind(t)
    else ParseMathKind(t)
  }

  /** The asset labels of the switch. */
  function ParseAssetKind(t: string): (r: Option<BrickKind>)
    ensures r.Some? ==> KindName(r.value) == t && CategoryOf(r.value) == AssetCategory
  {
    match t
    case "UnderlyingAsset" => Some(UnderlyingAsset)
    case "Bond" => Some(Bond)
    case _ => None
  }

  /** The option labels of the switch. */
  function ParseOptionKind(t: string): (r: Option<BrickKind>)
    ensures r.Some? ==> KindName(r.value) == t && CategoryOf(r.value) == OptionCategory
  {
    match t
    case "VanillaOption" => Some(VanillaOption)
    case "DigitalOption" => Some(DigitalOption)
    case "BarrierOption" => Some(BarrierOption)
    case "LookbackOption" => Some(LookbackOption)
    case "RangeOption" => Some(RangeOption)
    case _ => None
  }

  /** The logic labels of the switch. */
  function ParseLogicKind(t: string): (r: Option<BrickKind>)
    ensures r.Some? ==> KindName(r.value) == t && CategoryOf(r.value) == LogicCategory
  {
    match t
    case "IfThenElse" => Some(IfThenElse)
    case "BarrierTrigger" => Some(BarrierTrigger)
    case "AutocallTrigger" => Some(AutocallTrigger)
    case "KnockInCheck" => Some(KnockInCheck)
    case "MemoryBuffer" => Some(MemoryBuffer)
    case "HighWatermarkTracker" => Some(HighWatermarkTracker)
    case "TargetTracker" => Some(TargetTracker)
    case "Observation" => Some(Observation)
    case _ => None
  }

  /** The flow labels of the switch. */
  function ParseFlowKind(t: string): (r: Option<BrickKind>)
    ensures r.Some? ==> KindName(r.value) == t && CategoryOf(r.value) == FlowCategory
  {
    match t
    case "CouponSchedule" => Some(CouponSchedule)
    case "CouponLogic" => Some(CouponLogic)
    case "FinalPayout" => Some(FinalPayout)
    case "AutocallHandler" => Some(AutocallHandler)
    case "CouponAccumulator" => Some(CouponAccumulator)
    case _ => None
  }

  /** The math labels of the switch; anything else reaches the `default` branch. */
  function ParseMathKind(t: string): (r: Option<BrickKind>)
    ensures r.Some? ==> KindName(r.value) == t && CategoryOf(r.value) == MathCategory
  {
    match t
    case "Sum" => Some(Sum)
    case "Multiplier" => Some(Multiplier)
    case "Compare" => Some(Compare)
    case "Selector" => Some(Selector)
    case "Timer" => Some(Timer)
    case _ => None
  }

  /**
   * The input ports of each kind, in declaration order: at most three, with
   * distinct ids, all required and unconnected; only the underlying asset,
   * the bond and the coupon schedule have none, and every option takes the
   * underlying asset.
   */
  function InputsOf(k: BrickKind): (r: seq<BrickInput>)
    ensures |r| <= 3
    ensures r == [] <==> k.UnderlyingAsset? || k.Bond? || k.CouponSchedule?
    ensures forall i, j :: 0 <= i < j < |r| ==> r[i].id != r[j].id
    ensures forall i :: 0 <= i < |r| ==> r[i].required && r[i].connected == Some(false)
    ensures k.VanillaOption? || k.DigitalOption? || k.BarrierOption? || k.LookbackOption? || k.RangeOption?
            ==> |r| == 1 && r[0].id == "underlying" && r[0].portType == AssetPort
  {
    match k
    case UnderlyingAsset | Bond | CouponSchedule => []
    case VanillaOption | DigitalOption | BarrierOption | LookbackOption | RangeOption =>
      [CreateInput("underlying", "Underlying", AssetPort)]
    case IfThenElse =>
      [CreateInput("condition", "Condition", BooleanPort),
       CreateInput("then", "Then", AnyPort),
       CreateInput("else", "Else", AnyPort)]
    case BarrierTrigger | AutocallTrigger | Observation => [CreateInput("price", "Price", NumberPort)]
    case KnockInCheck => [CreateInput("trigger", "Trigger", BooleanPort)]
    case MemoryBuffer => [CreateInput("coupon", "Coupon", NumberPort)]
    case HighWatermarkTracker | TargetTracker | Compare => [CreateInput("value", "Value", NumberPort)]
    case CouponLogic =>
      [CreateInput("condition", "Condition", BooleanPort),
       CreateInput("schedule", "Schedule", AnyPort)]
    case FinalPayout =>
      [CreateInput("finalPrice", "Final Price", NumberPort),
       CreateInput("knockedIn", "Knocked In", BooleanPort)]
    case AutocallHandler => [CreateInput("autocallTrigger", "Autocall Trigger", BooleanPort)]
    case CouponAccumulator => [CreateInput("condition", "Condition", BooleanPort)]
    case Sum =>
      [CreateInput("input1", "Input 1", NumberPort),
       CreateInput("input2", "Input 2", NumberPort)]
    case Multiplier => [CreateInput("input", "Input", NumberPort)]
    case Selector =>
      [CreateInput("asset1", "Asset 1", NumberPort),
       CreateInput("asset2", "Asset 2", NumberPort)]
    case Timer => [CreateInput("startTrigger", "Start", BooleanPort)]
  }

  /**
   * The single output port of each kind: every option pays a number out of
   * `payoff`, and exactly the triggers, checks and comparisons answer a boolean.
   */
  function OutputOf(k: BrickKind): (r: BrickOutput)
    ensures k.VanillaOption? || k.DigitalOption? || k.BarrierOption? || k.LookbackOption? || k.RangeOption?
            ==> r.id == "payoff" && r.portType == NumberPort
    ensures r.portType == BooleanPort
            <==> k.BarrierTrigger? || k.AutocallTrigger? || k.KnockInCheck? || k.TargetTracker? || k.Observation? || k.Compare?
    ensures r.portType == AnyPort <==> k.IfThenElse? || k.CouponSchedule?
  {
    match k
    case UnderlyingAsset => CreateOutput("price", "Price", NumberPort)
    case Bond => CreateOutput("value", "Value", NumberPort)
    case VanillaOption | DigitalOption | BarrierOption | LookbackOption | RangeOption =>
      CreateOutput("payoff", "Payoff", NumberPort)
    case IfThenElse => CreateOutput("result", "Result", AnyPort)
    case BarrierTrigger => CreateOutput("triggered", "Triggered", BooleanPort)
    case AutocallTrigger => CreateOutput("autocall", "Autocall", BooleanPort)
    case KnockInCheck => CreateOutput("knockedIn", "Knocked In", BooleanPort)
    case MemoryBuffer => CreateOutput("buffered", "Buffered", NumberPort)
    case HighWatermarkTracker => CreateOutput("watermark", "Watermark", NumberPort)
    case TargetTracker => CreateOutput("targetMet", "Target Met", BooleanPort)
    case Observation => CreateOutput("result", "Result", BooleanPort)
    case CouponSchedule => CreateOutput("schedule", "Schedule", AnyPort)
    case CouponLogic => CreateOutput("coupon", "Coupon", NumberPort)
    case FinalPayout | AutocallHandler => CreateOutput("payout", "Payout", NumberPort)
    case CouponAccumulator => CreateOutput("accumulated", "Accumulated", NumberPort)
    case Sum => CreateOutput("sum", "Sum", NumberPort)
    case Multiplier => CreateOutput("output", "Output", NumberPort)
    case Compare => CreateOutput("result", "Result", BooleanPort)
    case Selector => CreateOutput("selected", "Selected", NumberPort)
    case Timer => CreateOutput("elapsed", "Elapsed", NumberPort)
  }

  const QuarterlyDates: seq<string> := ["3M", "6M", "9M", "1Y"]

  /** The default `properties` record of each kind. */
  function DefaultProperties(k: BrickKind): Properties
  {
    match k
    case UnderlyingAsset =>
      map["symbol" := Str("SPX"), "currentPrice" := Num(4000.0), "volatility" := Num(0.2), "dividendYield" := Num(0.02)]
    case Bond =>
      map["faceValue" := Num(1000.0), "couponRate" := Num(0.05), "maturity" := Str("1Y"), "yieldToMaturity" := Num(0.04)]
    case VanillaOption =>
      map["optionType" := Str("call"), "position" := Str("long"), "strike" := Num(4000.0),
          "expiry" := Str("1Y"), "notional" := Num(1000.0)]
    case DigitalOption =>
      map["strike" := Num(4000.0), "payoutAmount" := Num(100.0), "expiry" := Str("1Y"), "barrier" := Str("above")]
    case BarrierOption =>
      map["optionType" := Str("call"), "barrierType" := Str("up-and-out"), "strike" := Num(4000.0),
          "barrier" := Num(4800.0), "expiry" := Str("1Y"), "notional" := Num(1000.0)]
    case LookbackOption =>
      map["lookbackType" := Str("floating"), "expiry" := Str("1Y"), "notional" := Num(1000.0)]
    case RangeOption =>
      map["lowerBound" := Num(3800.0), "upperBound" := Num(4200.0), "payoutPerDay" := Num(1.0), "expiry" := Str("1Y")]
    case IfThenElse =>
      map["condition" := Str("price > strike")]
    case BarrierTrigger =>
      map["barrierLevel" := Num(4000.0), "triggerType" := Str("above"), "continuous" := Bool(true)]
    case AutocallTrigger =>
      map["autocallLevel" := Num(4000.0), "observationDates" := StrList(QuarterlyDates), "callable" := Bool(true)]
    case KnockInCheck =>
      map["knockInLevel" := Num(3200.0), "activated" := Bool(false)]
    case MemoryBuffer =>
      map["storedCoupons" := NumList([]), "maxBuffer" := Num(10.0)]
    case HighWatermarkTracker =>
      map["trackingType" := Str("maximum"), "currentValue" := Num(0.0)]
    case TargetTracker =>
      map["targetAmount" := Num(1000.0), "currentAccumulated" := Num(0.0), "resetOnTarget" := Bool(true)]
    case Observation =>
      map["observationDates" := StrList(QuarterlyDates), "condition" := Str("price >= initial"), "result" := Bool(false)]
    case CouponSchedule =>
      map["paymentDates" := StrList(QuarterlyDates), "observationDates" := StrList(QuarterlyDates),
          "frequency" := Str("quarterly")]
    case CouponLogic =>
      map["couponRate" := Num(0.08), "conditional" := Bool(true), "condition" := Str("price >= barrier"),
          "memory" := Bool(false)]
    case FinalPayout =>
      map["protectionLevel" := Num(0.7), "participationRate" := Num(1.0), "cap" := Num(1.2)]
    case AutocallHandler =>
      map["autocallAmount" := Num(1000.0), "couponPayment" := Num(80.0), "callCondition" := Str("price >= initial")]
    case CouponAccumulator =>
      map["dailyRate" := Num(0.02), "condition" := Str("in range"), "resetFrequency" := Str("quarterly")]
    case Sum => map["inputCount" := Num(2.0)]
    case Multiplier => map["factor" := Num(1.0)]
    case Compare => map["operator" := Str("GT"), "threshold" := Num(0.0)]
    case Selector => map["selectionType" := Str("best"), "assetCount" := Num(2.0)]
    case Timer => map["startEvent" := Str("barrier hit"), "elapsedTime" := Num(0.0), "units" := Str("days")]
  }

  /** Input port ids are pairwise distinct within a brick. */
  predicate DistinctInputIds(inputs: seq<BrickInput>)
  {
    forall i, j :: 0 <= i < j < |inputs| ==> inputs[i].id != inputs[j].id
  }

  /**
   * The brick literal of one case of the switch: empty id, position (0, 0),
   * the category the brick interface pins and exactly one output.
   */
  function Template(k: BrickKind): (b: Brick)
    ensures b.id == "" && b.kind == k && b.position == Position(0.0, 0.0)
    ensures b.category == CategoryOf(k)
    ensures |b.outputs| == 1
  {
    Brick("", k, CategoryOf(k), Position(0.0, 0.0), InputsOf(k), [OutputOf(k)], DefaultProperties(k))
  }

  /** `createBrickTemplate(type)`: the brick of a recognised kind string, `None` for any other string. */
  function CreateBrickTemplate(t: string): (r: Option<Brick>)
    ensures r.Some? ==> KindName(r.value.kind) == t && r.value == Template(r.value.kind)
  {
    match ParseKind(t)
    case None => None
    case Some(k) => Some(Template(k))
  }

  /** Every kind's own name is recognised, and yields that kind. */
  lemma RecognisesEveryKind(k: BrickKind)
    ensures ParseKind(KindName(k)) == Some(k)
    ensures CreateBrickTemplate(KindName(k)) == Some(Template(k))
  {
    match CategoryOf(k)
    case AssetCategory => RecognisesAssetKind(k);
    case OptionCategory => RecognisesOptionKind(k);
    case LogicCategory => RecognisesLogicKind(k);
    case FlowCategory => RecognisesFlowKind(k);
    case MathCategory => RecognisesMathKind(k);
  }

  lemma {:induction false} RecognisesAssetKind(k: BrickKind)
    requires CategoryOf(k) == AssetCategory
    ensures ParseKind(KindName(k)) == Some(k)
  {
    match k
    case UnderlyingAsset =>
    case Bond =>
  }

  lemma {:induction false} RecognisesOptionKind(k: BrickKind)
    requires CategoryOf(k) == OptionCategory
    ensures ParseKind(KindName(k)) == Some(k)
  {
    match k
    case VanillaOption =>
    case DigitalOption =>
    case BarrierOption =>
    case LookbackOption =>
    case RangeOption =>
  }

  lemma {:induction false} RecognisesLogicKind(k: BrickKind)
    requires CategoryOf(k) == LogicCategory
    ensures ParseKind(KindName(k)) == Some(k)
  {
    match k
    case IfThenElse =>
    case BarrierTrigger =>
    case AutocallTrigger =>
    case KnockInCheck =>
    case MemoryBuffer =>
    case HighWatermarkTracker =>
    case TargetTracker =>
    case Observation =>
  }

  lemma {:induction false} RecognisesFlowKind(k: BrickKind)
    requires CategoryOf(k) == FlowCategory
    ensures ParseKind(KindName(k)) == Some(k)
  {
    match k
    case CouponSchedule =>
    case CouponLogic =>
    case FinalPayout =>
    case AutocallHandler =>
    case CouponAccumulator =>
  }

  lemma {:induction false} RecognisesMathKind(k: BrickKind)
    requires CategoryOf(k) == MathCategory
    ensures ParseKind(KindName(k)) == Some(k)
  {
    match k
    case Sum =>
    case Multiplier =>
    case Compare =>
    case Selector =>
    case Timer =>
  }

  /** The `default` branch: exactly the strings that name no kind yield `None`. */
  lemma UnknownKindIsNone(t: string)
    ensures CreateBrickTemplate(t).None? <==> forall k: BrickKind :: KindName(k) != t
  {
    if exists k: BrickKind :: KindName(k) == t {
      var k: BrickKind :| KindName(k) == t;
      RecognisesEveryKind(k);
    }
  }

  /** Every recognised kind's inputs are required, not yet connected, and distinctly named. */
  lemma TemplateInputs(k: BrickKind)
    ensures var b := Template(k);
      && (forall i :: 0 <= i < |b.inputs| ==> b.inputs[i].required && b.inputs[i].connected == Some(false))
      && DistinctInputIds(b.inputs)
      && (k == UnderlyingAsset || k == Bond || k == CouponSchedule <==> b.inputs == [])
  {
    assert Template(k).inputs == InputsOf(k);
    if |InputsOf(k)| >= 2 {
      SeveralInputs(k);
    } else {
      assert k != IfThenElse && k != CouponLogic && k != FinalPayout && k != Sum && k != Selector;
    }
  }

  /** The five kinds with more than one input name them apart. */
  lemma {:induction false} SeveralInputs(k: BrickKind)
    requires |InputsOf(k)| >= 2
    ensures k in {IfThenElse, CouponLogic, FinalPayout, Sum, Selector}
    ensures forall i :: 0 <= i < |InputsOf(k)| ==> InputsOf(k)[i].required && InputsOf(k)[i].connected == Some(false)
    ensures DistinctInputIds(InputsOf(k))
  {
    match k
    case IfThenElse =>
      assert InputsOf(k) == [CreateInput("condition", "Condition", BooleanPort),
                             CreateInput("then", "Then", AnyPort), CreateInput("else", "Else", AnyPort)];
    case CouponLogic =>
    case FinalPayout =>
    case Sum =>
    case Selector =>
    case _ =>
  }

  /** The defaults of every kind have the key set and value types its brick interface declares. */
  lemma DefaultsHaveShape(k: BrickKind)
    ensures HasShape(k, Template(k).properties)
  {
    match CategoryOf(k)
    case AssetCategory => AssetDefaultsHaveShape(k);
    case OptionCategory => OptionDefaultsHaveShape(k);
    case LogicCategory => LogicDefaultsHaveShape(k);
    case FlowCategory => FlowDefaultsHaveShape(k);
    case MathCategory => MathDefaultsHaveShape(k);
  }

  lemma {:induction false} AssetDefaultsHaveShape(k: BrickKind)
    requires CategoryOf(k) == AssetCategory
    ensures HasShape(k, DefaultProperties(k))
  {
    match k
    case UnderlyingAsset =>
    case Bond =>
  }

  lemma {:induction false} OptionDefaultsHaveShape(k: BrickKind)
    requires CategoryOf(k) == OptionCategory
    ensures HasShape(k, DefaultProperties(k))
  {
    match k
    case VanillaOption =>
    case DigitalOption =>
    case BarrierOption =>
    case LookbackOption =>
    case RangeOption =>
  }

  lemma {:induction false} LogicDefaultsHaveShape(k: BrickKind)
    requires CategoryOf(k) == LogicCategory
    ensures HasShape(k, DefaultProperties(k))
  {
    match k
    case IfThenElse =>
    case BarrierTrigger =>
    case AutocallTrigger =>
    case KnockInCheck =>
    case MemoryBuffer =>
    case HighWatermarkTracker =>
    case TargetTracker =>
    case Observation =>
  }

  lemma {:induction false} FlowDefaultsHaveShape(k: BrickKind)
    requires CategoryOf(k) == FlowCategory
    ensures HasShape(k, DefaultProperties(k))
  {
    match k
    case CouponSchedule =>
    case CouponLogic =>
    case FinalPayout =>
    case AutocallHandler =>
    case CouponAccumulator =>
  }

  lemma {:induction false} MathDefaultsHaveShape(k: BrickKind)
    requires CategoryOf(k) == MathCategory
    ensures HasShape(k, DefaultProperties(k))
  {
    match k
    case Sum =>
    case Multiplier =>
    case Compare =>
    case Selector =>
    case Timer =>
  }

  /** All five option kinds take one `underlying` asset input and give one `payoff` number output. */
  lemma OptionPorts(k: BrickKind)
    requires CategoryOf(k) == OptionCategory
    ensures Template(k).inputs == [BrickInput("underlying", "Underlying", AssetPort, true, Some(false))]
    ensures Template(k).outputs == [BrickOutput("payoff", "Payoff", NumberPort)]
  {
  }

  /** Distinct kinds have distinct names, so the dispatch is a bijection onto the 25 labels. */
  lemma KindNameInjective(k1: BrickKind, k2: BrickKind)
    ensures KindName(k1) == KindName(k2) ==> k1 == k2
  {
    RecognisesEveryKind(k1);
    RecognisesEveryKind(k2);
  }

  /** The vanilla option's defaults: a long 4000-strike one-year call on a notional of 1000. */
  lemma VanillaDefaults()
    ensures CreateBrickTemplate("VanillaOption").Some?
    ensures var p := CreateBrickTemplate("VanillaOption").value.properties;
      p == map["optionType" := Str("call"), "position" := Str("long"), "strike" := Num(4000.0),
               "expiry" := Str("1Y"), "notional" := Num(1000.0)]
  {
    RecognisesEveryKind(VanillaOption);
  }

  /** The digital option's defaults: pays 100 above a strike of 4000, one year. */
  lemma DigitalDefaults()
    ensures CreateBrickTemplate("DigitalOption").Some?
    ensures var p := CreateBrickTemplate("DigitalOption").value.properties;
      p == map["strike" := Num(4000.0), "payoutAmount" := Num(100.0), "expiry" := Str("1Y"), "barrier" := Str("above")]
  {
    RecognisesEveryKind(DigitalOption);
  }

  // ---------------------------------------------------------------------------
  // The palette's category-to-kind table, checked against the catalog.

  /** The kind names the palette offers under each category tab. */
  function PaletteKinds(c: Category): seq<string>
  {
    match c
    case AssetCategory => ["UnderlyingAsset", "Bond"]
    case OptionCategory => ["VanillaOption", "DigitalOption", "BarrierOption", "LookbackOption", "RangeOption"]
    case LogicCategory => ["IfThenElse", "BarrierTrigger", "AutocallTrigger", "KnockInCheck", "MemoryBuffer",
                           "HighWatermarkTracker", "TargetTracker", "Observation"]
    case FlowCategory => ["CouponSchedule", "CouponLogic", "FinalPayout", "AutocallHandler", "CouponAccumulator"]
    case MathCategory => ["Sum", "Multiplier", "Compare", "Selector", "Timer"]
  }

  /** Every name the palette lists under a tab is recognised and yields a brick of that category. */
  lemma PaletteAgreesWithCatalog(c: Category, name: string)
    requires name in PaletteKinds(c)
    ensures CreateBrickTemplate(name).Some?
    ensures CreateBrickTemplate(name).value.category == c
  {
    match c
    case AssetCategory => assert ParseAssetKind(name).Some?;
    case OptionCategory => assert ParseAssetKind(name).None? && ParseOptionKind(name).Some?;
    case LogicCategory => PaletteLogicParses(name);
    case FlowCategory => PaletteFlowParses(name);
    case MathCategory => PaletteMathParses(name);
  }

  lemma PaletteLogicParses(name: string)
    requires name in PaletteKinds(LogicCategory)
    ensures ParseKind(name) == ParseLogicKind(name) && ParseLogicKind(name).Some?
  {
    assert ParseAssetKind(name).None? && ParseOptionKind(name).None?;
  }

  lemma PaletteFlowParses(name: string)
    requires name in PaletteKinds(FlowCategory)
    ensures ParseKind(name) == ParseFlowKind(name) && ParseFlowKind(name).Some?
  {
    assert ParseAssetKind(name).None? && ParseOptionKind(name).None?;
    assert ParseLogicKind(name).None?;
  }

  lemma PaletteMathParses(name: string)
    requires name in PaletteKinds(MathCategory)
    ensures ParseKind(name) == ParseMathKind(name) && ParseMathKind(name).Some?
  {
    assert ParseAssetKind(name).None? && ParseOptionKind(name).None?;
    assert ParseLogicKind(name).None? && ParseFlowKind(name).None?;
  }

  /** Every kind is offered by the palette, under the tab of its own category. */
  lemma PaletteCoversCatalog(k: BrickKind)
    ensures KindName(k) in PaletteKinds(CategoryOf(k))
  {
    match CategoryOf(k)
    case AssetCategory => assert k == UnderlyingAsset || k == Bond;
    case OptionCategory => PaletteCoversOptions(k);
    case LogicCategory => PaletteCoversLogic(k);
    case FlowCategory => PaletteCoversFlow(k);
    case MathCategory => PaletteCoversMath(k);
  }

  lemma {:induction false} PaletteCoversOptions(k: BrickKind)
    requires CategoryOf(k) == OptionCategory
    ensures KindName(k) in PaletteKinds(OptionCategory)
  {
    match k
    case VanillaOption =>
    case DigitalOption =>
    case BarrierOption =>
    case LookbackOption =>
    case RangeOption =>
  }

  lemma {:induction false} PaletteCoversLogic(k: BrickKind)
    requires CategoryOf(k) == LogicCategory
    ensures KindName(k) in PaletteKinds(LogicCategory)
  {
    match k
    case IfThenElse =>
    case BarrierTrigger =>
    case AutocallTrigger =>
    case KnockInCheck =>
    case MemoryBuffer =>
    case HighWatermarkTracker =>
    case TargetTracker =>
    case Observation =>
  }

  lemma {:induction false} PaletteCoversFlow(k: BrickKind)
    requires CategoryOf(k) == FlowCategory
    ensures KindName(k) in PaletteKinds(FlowCategory)
  {
    match k
    case CouponSchedule =>
    case CouponLogic =>
    case FinalPayout =>
    case AutocallHandler =>
    case CouponAccumulator =>
  }

  lemma {:induction false} PaletteCoversMath(k: BrickKind)
    requires CategoryOf(k) == MathCategory
    ensures KindName(k) in PaletteKinds(MathCategory)
  {
    match k
    case Sum =>
    case Multiplier =>
    case Compare =>
    case Selector =>
    case Timer =>
  }

}

/**
 * The four ready-made product graphs. Each builder looks its kinds up in the
 * catalog, gives up with an empty list when a lookup fails, moves each
 * brick, replaces some property records wholesale and returns copies with
 * fixed ids. The builders only change objects they have just created, so
 * here they are record updates on the catalog's values.
 */
module Products {
  import opened Wrappers
  import opened Bricks
  import opened Catalog

  /** `{ ...b, id }` after `b.position = pos`. */
  function Placed(b: Brick, id: string, x: real, y: real): (r: Brick)
    ensures r.id == id && r.position == Position(x, y)
    ensures r.kind == b.kind && r.category == b.category && r.inputs == b.inputs && r.outputs == b.outputs
    ensures r.properties == b.properties
  {
    b.(id := id, position := Position(x, y))
  }

  /** The ids of the bricks, in order. */
  function Ids(bricks: seq<Brick>): (r: seq<string>)
    ensures |r| == |bricks| && forall i :: 0 <= i < |bricks| ==> r[i] == bricks[i].id
  {
    seq(|bricks|, i requires 0 <= i < |bricks| => bricks[i].id)
  }

  /** Brick `r` is a copy of `b`: same kind, category and ports. */
  predicate SameShape(r: Brick, b: Brick)
  {
    r.kind == b.kind && r.category == b.category && r.inputs == b.inputs && r.outputs == b.outputs
  }

  /** Each brick of `r` is a copy of the looked-up brick at the same place in `bs`. */
  predicate CopiesOf(r: seq<Brick>, bs: seq<Brick>)
  {
    |r| == |bs| && forall i :: 0 <= i < |r| ==> SameShape(r[i], bs[i])
  }

  const SnowballIds: seq<string> :=
    ["underlying-1", "schedule-1", "barrier-1", "autocall-1", "memory-1", "knockin-1", "payout-1"]
  const ReverseConvertibleIds: seq<string> := ["underlying-1", "option-1", "bond-1", "schedule-1", "payout-1"]
  const TwinWinIds: seq<string> := ["underlying-1", "call-1", "put-1", "sum-1"]
  const AccumulatorIds: seq<string> := ["underlying-1", "accumulator-1", "range-1", "timer-1"]

  function Conn(id: string, sourceId: string, targetId: string, sourceOutputId: string, targetInputId: string): BrickConnection
  {
    BrickConnection(id, sourceId, targetId, sourceOutputId, targetInputId)
  }

  // ---------------------------------------------------------------------------
  // Snowball note

  /** The configured snowball bricks, given the catalog bricks the builder looked up. */
  function SnowballNote(underlying: Brick, couponSchedule: Brick, barrierTrigger: Brick, autocallTrigger: Brick,
                        memoryBuffer: Brick, knockInCheck: Brick, finalPayout: Brick): (r: seq<Brick>)
    ensures Ids(r) == SnowballIds
    ensures CopiesOf(r, [underlying, couponSchedule, barrierTrigger, autocallTrigger, memoryBuffer, knockInCheck, finalPayout])
    ensures r[1].properties == couponSchedule.properties && r[4].properties == memoryBuffer.properties
    ensures r[5].properties == knockInCheck.properties
  {
    [ Placed(underlying.(properties := map["symbol" := Str("SPX"), "currentPrice" := Num(4000.0),
                                           "volatility" := Num(0.2), "dividendYield" := Num(0.02)]),
             "underlying-1", 100.0, 100.0),
      Placed(couponSchedule, "schedule-1", 300.0, 50.0),
      Placed(barrierTrigger.(properties := map["barrierLevel" := Num(3200.0), "triggerType" := Str("below"),
                                               "continuous" := Bool(true)]),
             "barrier-1", 300.0, 150.0),
      Placed(autocallTrigger.(properties := map["autocallLevel" := Num(4000.0),
                                                "observationDates" := StrList(["3M", "6M", "9M", "1Y"]),
                                                "callable" := Bool(true)]),
             "autocall-1", 500.0, 100.0),
      Placed(memoryBuffer, "memory-1", 500.0, 200.0),
      Placed(knockInCheck, "knockin-1", 300.0, 250.0),
      Placed(finalPayout.(properties := map["protectionLevel" := Num(0.8), "participationRate" := Num(1.0)]),
             "payout-1", 700.0, 150.0) ]
  }

  /** `createSnowballNote()`: the empty list when a lookup fails, otherwise the configured bricks. */
  function CreateSnowballNote(): (r: seq<Brick>)
    ensures r == [] || Ids(r) == SnowballIds
  {
    var underlying := CreateBrickTemplate("UnderlyingAsset");
    var couponSchedule := CreateBrickTemplate("CouponSchedule");
    var barrierTrigger := CreateBrickTemplate("BarrierTrigger");
    var autocallTrigger := CreateBrickTemplate("AutocallTrigger");
    var memoryBuffer := CreateBrickTemplate("MemoryBuffer");
    var knockInCheck := CreateBrickTemplate("KnockInCheck");
    var finalPayout := CreateBrickTemplate("FinalPayout");
    if underlying.None? || couponSchedule.None? || barrierTrigger.None? || autocallTrigger.None?
       || memoryBuffer.None? || knockInCheck.None? || finalPayout.None? then []
    else
      SnowballNote(underlying.value, couponSchedule.value, barrierTrigger.value, autocallTrigger.value,
                   memoryBuffer.value, knockInCheck.value, finalPayout.value)
  }

  function CreateSnowballConnections(): (r: seq<BrickConnection>)
    ensures |r| == 5 && forall i :: 0 <= i < |r| ==> r[i].sourceId != r[i].targetId
  {
    [ Conn("conn-1", "underlying-1", "barrier-1", "price", "price"),
      Conn("conn-2", "underlying-1", "autocall-1", "price", "price"),
      Conn("conn-3", "barrier-1", "knockin-1", "triggered", "trigger"),
      Conn("conn-4", "autocall-1", "payout-1", "autocall", "finalPrice"),
      Conn("conn-5", "knockin-1", "payout-1", "knockedIn", "knockedIn") ]
  }

  // ---------------------------------------------------------------------------
  // Reverse convertible

  function ReverseConvertible(underlying: Brick, vanillaOption: Brick, bond: Brick, couponSchedule: Brick,
                              finalPayout: Brick): (r: seq<Brick>)
    ensures Ids(r) == ReverseConvertibleIds
    ensures CopiesOf(r, [underlying, vanillaOption, bond, couponSchedule, finalPayout])
    ensures r[0].properties == underlying.properties && r[3].properties == couponSchedule.properties
    ensures r[4].properties == finalPayout.properties
  {
    [ Placed(underlying, "underlying-1", 100.0, 100.0),
      Placed(vanillaOption.(properties := map["optionType" := Str("put"), "position" := Str("short"),
                                              "strike" := Num(3200.0), "notional" := Num(1000.0)]),
             "option-1", 300.0, 150.0),
      Placed(bond.(properties := map["faceValue" := Num(1000.0), "couponRate" := Num(0.08), "maturity" := Str("1Y")]),
             "bond-1", 300.0, 50.0),
      Placed(couponSchedule, "schedule-1", 500.0, 50.0),
      Placed(finalPayout, "payout-1", 700.0, 100.0) ]
  }

  function CreateReverseConvertible(): (r: seq<Brick>)
    ensures r == [] || Ids(r) == ReverseConvertibleIds
  {
    var underlying := CreateBrickTemplate("UnderlyingAsset");
    var vanillaOption := CreateBrickTemplate("VanillaOption");
    var bond := CreateBrickTemplate("Bond");
    var couponSchedule := CreateBrickTemplate("CouponSchedule");
    var finalPayout := CreateBrickTemplate("FinalPayout");
    if underlying.None? || vanillaOption.None? || bond.None? || couponSchedule.None? || finalPayout.None? then []
    else ReverseConvertible(underlying.value, vanillaOption.value, bond.value, couponSchedule.value, finalPayout.value)
  }

  function CreateReverseConvertibleConnections(): (r: seq<BrickConnection>)
    ensures |r| == 3 && forall i :: 0 <= i < |r| ==> r[i].sourceId != r[i].targetId
  {
    [ Conn("conn-1", "underlying-1", "option-1", "price", "underlying"),
      Conn("conn-2", "option-1", "payout-1", "payoff", "finalPrice"),
      Conn("conn-3", "bond-1", "payout-1", "value", "knockedIn") ]
  }

  // ---------------------------------------------------------------------------
  // Twin win note

  function TwinWinNote(underlying: Brick, callOption: Brick, putOption: Brick, sum: Brick): (r: seq<Brick>)
    ensures Ids(r) == TwinWinIds
    ensures CopiesOf(r, [underlying, callOption, putOption, sum])
    ensures r[0].properties == underlying.properties && r[3].properties == sum.properties
  {
    [ Placed(underlying, "underlying-1", 100.0, 100.0),
      Placed(callOption.(properties := map["optionType" := Str("call"), "position" := Str("long"),
                                           "strike" := Num(4000.0), "notional" := Num(1000.0)]),
             "call-1", 300.0, 50.0),
      Placed(putOption.(properties := map["optionType" := Str("put"), "position" := Str("long"),
                                          "strike" := Num(4000.0), "notional" := Num(1000.0)]),
             "put-1", 300.0, 150.0),
      Placed(sum, "sum-1", 500.0, 100.0) ]
  }

  function CreateTwinWinNote(): (r: seq<Brick>)
    ensures r == [] || Ids(r) == TwinWinIds
  {
    var underlying := CreateBrickTemplate("UnderlyingAsset");
    var callOption := CreateBrickTemplate("VanillaOption");
    var putOption := CreateBrickTemplate("VanillaOption");
    var sum := CreateBrickTemplate("Sum");
    if underlying.None? || callOption.None? || putOption.None? || sum.None? then []
    else TwinWinNote(underlying.value, callOption.value, putOption.value, sum.value)
  }

  function CreateTwinWinConnections(): (r: seq<BrickConnection>)
    ensures |r| == 4 && forall i :: 0 <= i < |r| ==> r[i].sourceId != r[i].targetId
  {
    [ Conn("conn-1", "underlying-1", "call-1", "price", "underlying"),
      Conn("conn-2", "underlying-1", "put-1", "price", "underlying"),
      Conn("conn-3", "call-1", "sum-1", "payoff", "input1"),
      Conn("conn-4", "put-1", "sum-1", "payoff", "input2") ]
  }

  // ---------------------------------------------------------------------------
  // Accumulator

  /** The accumulator bricks; the list order differs from the left-to-right layout. */
  function Accumulator(underlying: Brick, couponAccumulator: Brick, rangeOption: Brick, timer: Brick): (r: seq<Brick>)
    ensures Ids(r) == AccumulatorIds
    ensures CopiesOf(r, [underlying, couponAccumulator, rangeOption, timer])
    ensures r[0].properties == underlying.properties && r[3].properties == timer.properties
  {
    [ Placed(underlying, "underlying-1", 100.0, 100.0),
      Placed(couponAccumulator.(properties := map["dailyRate" := Num(0.02), "condition" := Str("in range"),
                                                  "resetFrequency" := Str("quarterly")]),
             "accumulator-1", 500.0, 100.0),
      Placed(rangeOption.(properties := map["lowerBound" := Num(3800.0), "upperBound" := Num(4200.0),
                                            "payoutPerDay" := Num(2.0)]),
             "range-1", 300.0, 100.0),
      Placed(timer, "timer-1", 300.0, 200.0) ]
  }

  function CreateAccumulator(): (r: seq<Brick>)
    ensures r == [] || Ids(r) == AccumulatorIds
  {
    var underlying := CreateBrickTemplate("UnderlyingAsset");
    var couponAccumulator := CreateBrickTemplate("CouponAccumulator");
    var rangeOption := CreateBrickTemplate("RangeOption");
    var timer := CreateBrickTemplate("Timer");
    if underlying.None? || couponAccumulator.None? || rangeOption.None? || timer.None? then []
    else Accumulator(underlying.value, couponAccumulator.value, rangeOption.value, timer.value)
  }

  function CreateAccumulatorConnections(): (r: seq<BrickConnection>)
    ensures |r| == 2 && forall i :: 0 <= i < |r| ==> r[i].sourceId != r[i].targetId
  {
    [ Conn("conn-1", "underlying-1", "range-1", "price", "underlying"),
      Conn("conn-2", "range-1", "accumulator-1", "payoff", "condition") ]
  }

  // ---------------------------------------------------------------------------
  // The product list

  /** `getProductTemplates()`: the four products, in display order. */
  function GetProductTemplates(): (r: seq<ProductTemplate>)
    ensures |r| == 4
  {
    [ ProductTemplate("snowball-note", "Snowball Note",
                      "Autocallable note with memory coupon feature and barrier protection",
                      CreateSnowballNote(), CreateSnowballConnections()),
      ProductTemplate("reverse-convertible", "Reverse Convertible",
                      "High yield note with downside equity exposure",
                      CreateReverseConvertible(), CreateReverseConvertibleConnections()),
      ProductTemplate("twin-win", "Twin Win Note",
                      "Symmetric payoff structure with upside and downside participation",
                      CreateTwinWinNote(), CreateTwinWinConnections()),
      ProductTemplate("accumulator", "Accumulator",
                      "Daily range accrual with leverage and knockout features",
                      CreateAccumulator(), CreateAccumulatorConnections()) ]
  }
}

/** Structural properties of the four product graphs. */
module ProductProperties {
  import opened Wrappers
  import opened Bricks
  import opened Catalog
  import opened Products

  function ProductIds(ts: seq<ProductTemplate>): (r: seq<string>)
    ensures |r| == |ts| && forall i :: 0 <= i < |ts| ==> r[i] == ts[i].id
  {
    seq(|ts|, i requires 0 <= i < |ts| => ts[i].id)
  }

  /** A connection resolves once an output and an input with the right brick and port ids are exhibited. */
  lemma ResolvesVia(bricks: seq<Brick>, c: BrickConnection, i: nat, k: nat, j: nat, m: nat)
    requires i < |bricks| && k < |bricks[i].outputs| && bricks[i].id == c.sourceId && bricks[i].outputs[k].id == c.sourceOutputId
    requires j < |bricks| && m < |bricks[j].inputs| && bricks[j].id == c.targetId && bricks[j].inputs[m].id == c.targetInputId
    ensures Resolves(bricks, c)
  {
  }

  /** The catalog recognises every kind the snowball note asks for. */
  lemma SnowballLookups()
    ensures CreateBrickTemplate("UnderlyingAsset") == Some(Template(UnderlyingAsset))
    ensures CreateBrickTemplate("CouponSchedule") == Some(Template(CouponSchedule))
    ensures CreateBrickTemplate("BarrierTrigger") == Some(Template(BarrierTrigger))
    ensures CreateBrickTemplate("AutocallTrigger") == Some(Template(AutocallTrigger))
    ensures CreateBrickTemplate("MemoryBuffer") == Some(Template(MemoryBuffer))
    ensures CreateBrickTemplate("KnockInCheck") == Some(Template(KnockInCheck))
    ensures CreateBrickTemplate("FinalPayout") == Some(Template(FinalPayout))
  {
    SnowballAssetAndFlowLookups();
    SnowballLogicLookups();
  }

  lemma SnowballAssetAndFlowLookups()
    ensures CreateBrickTemplate("UnderlyingAsset") == Some(Template(UnderlyingAsset))
    ensures CreateBrickTemplate("CouponSchedule") == Some(Template(CouponSchedule))
    ensures CreateBrickTemplate("FinalPayout") == Some(Template(FinalPayout))
  {
    RecognisesEveryKind(UnderlyingAsset);
    RecognisesEveryKind(CouponSchedule);
    RecognisesEveryKind(FinalPayout);
  }

  lemma SnowballLogicLookups()
    ensures CreateBrickTemplate("BarrierTrigger") == Some(Template(BarrierTrigger))
    ensures CreateBrickTemplate("AutocallTrigger") == Some(Template(AutocallTrigger))
    ensures CreateBrickTemplate("MemoryBuffer") == Some(Template(MemoryBuffer))
    ensures CreateBrickTemplate("KnockInCheck") == Some(Template(KnockInCheck))
  {
    SnowballTriggerLookups();
    RecognisesEveryKind(MemoryBuffer);
    RecognisesEveryKind(KnockInCheck);
  }

  lemma SnowballTriggerLookups()
    ensures CreateBrickTemplate("BarrierTrigger") == Some(Template(BarrierTrigger))
    ensures CreateBrickTemplate("AutocallTrigger") == Some(Template(AutocallTrigger))
  {
    RecognisesEveryKind(BarrierTrigger);
    RecognisesEveryKind(AutocallTrigger);
  }

  lemma SnowballBuilt()
    ensures CreateSnowballNote()
            == SnowballNote(Template(UnderlyingAsset), Template(CouponSchedule), Template(BarrierTrigger),
                            Template(AutocallTrigger), Template(MemoryBuffer), Template(KnockInCheck),
                            Template(FinalPayout))
  {
    SnowballLookups();
  }

  /** The snowball bricks carry the seven ids, pairwise distinct, whatever bricks were looked up. */
  lemma SnowballNoteIds(underlying: Brick, couponSchedule: Brick, barrierTrigger: Brick, autocallTrigger: Brick,
                        memoryBuffer: Brick, knockInCheck: Brick, finalPayout: Brick)
    ensures var b := SnowballNote(underlying, couponSchedule, barrierTrigger, autocallTrigger, memoryBuffer, knockInCheck, finalPayout);
      && Ids(b) == ["underlying-1", "schedule-1", "barrier-1", "autocall-1", "memory-1", "knockin-1", "payout-1"]
      && UniqueBrickIds(b)
  {
  }

  /** The snowball connections have distinct ids and distinct target ports. */
  lemma SnowballConnectionsDistinct()
    ensures UniqueConnectionIds(CreateSnowballConnections()) && FanInAtMostOne(CreateSnowballConnections())
  {
  }

  /** Every snowball connection resolves whenever the looked-up bricks carry the ports the connections name. */
  lemma SnowballNoteEndpoints(underlying: Brick, couponSchedule: Brick, barrierTrigger: Brick, autocallTrigger: Brick,
                              memoryBuffer: Brick, knockInCheck: Brick, finalPayout: Brick)
    requires |underlying.outputs| > 0 && underlying.outputs[0].id == "price"
    requires |barrierTrigger.inputs| > 0 && barrierTrigger.inputs[0].id == "price"
    requires |barrierTrigger.outputs| > 0 && barrierTrigger.outputs[0].id == "triggered"
    requires |autocallTrigger.inputs| > 0 && autocallTrigger.inputs[0].id == "price"
    requires |autocallTrigger.outputs| > 0 && autocallTrigger.outputs[0].id == "autocall"
    requires |knockInCheck.inputs| > 0 && knockInCheck.inputs[0].id == "trigger"
    requires |knockInCheck.outputs| > 0 && knockInCheck.outputs[0].id == "knockedIn"
    requires |finalPayout.inputs| > 1 && finalPayout.inputs[0].id == "finalPrice" && finalPayout.inputs[1].id == "knockedIn"
    ensures EndpointsResolve(SnowballNote(underlying, couponSchedule, barrierTrigger, autocallTrigger, memoryBuffer,
                                          knockInCheck, finalPayout),
                             CreateSnowballConnections())
  {
    var b := SnowballNote(underlying, couponSchedule, barrierTrigger, autocallTrigger, memoryBuffer, knockInCheck, finalPayout);
    var c := CreateSnowballConnections();
    ResolvesVia(b, c[0], 0, 0, 2, 0);
    ResolvesVia(b, c[1], 0, 0, 3, 0);
    ResolvesVia(b, c[2], 2, 0, 5, 0);
    ResolvesVia(b, c[3], 3, 0, 6, 0);
    ResolvesVia(b, c[4], 5, 0, 6, 1);
  }

  /** The ports of the catalog bricks the snowball connections name. */
  lemma SnowballTriggerPorts()
    ensures Template(UnderlyingAsset).outputs[0].id == "price"
    ensures Template(BarrierTrigger).inputs == [CreateInput("price", "Price", NumberPort)]
    ensures Template(BarrierTrigger).outputs[0].id == "triggered"
    ensures Template(AutocallTrigger).inputs == [CreateInput("price", "Price", NumberPort)]
    ensures Template(AutocallTrigger).outputs[0].id == "autocall"
  {
  }

  lemma SnowballTemplatePorts()
    ensures Template(KnockInCheck).inputs == [CreateInput("trigger", "Trigger", BooleanPort)]
    ensures Template(KnockInCheck).outputs[0].id == "knockedIn"
    ensures Template(FinalPayout).inputs
            == [CreateInput("finalPrice", "Final Price", NumberPort), CreateInput("knockedIn", "Knocked In", BooleanPort)]
  {
  }

  /** The snowball note: seven bricks with distinct ids, and five connections that all resolve, one per input port. */
  lemma SnowballWellFormed()
    ensures Ids(CreateSnowballNote())
            == ["underlying-1", "schedule-1", "barrier-1", "autocall-1", "memory-1", "knockin-1", "payout-1"]
    ensures WellFormedGraph(CreateSnowballNote(), CreateSnowballConnections())
  {
    SnowballBuilt();
    SnowballTriggerPorts();
    SnowballTemplatePorts();
    SnowballNoteIds(Template(UnderlyingAsset), Template(CouponSchedule), Template(BarrierTrigger),
                    Template(AutocallTrigger), Template(MemoryBuffer), Template(KnockInCheck), Template(FinalPayout));
    SnowballConnectionsDistinct();
    SnowballNoteEndpoints(Template(UnderlyingAsset), Template(CouponSchedule), Template(BarrierTrigger),
                          Template(AutocallTrigger), Template(MemoryBuffer), Template(KnockInCheck), Template(FinalPayout));
  }

  // ---------------------------------------------------------------------------
  // Reverse convertible

  lemma ReverseConvertibleBuilt()
    ensures CreateReverseConvertible()
            == ReverseConvertible(Template(UnderlyingAsset), Template(VanillaOption), Template(Bond),
                                  Template(CouponSchedule), Template(FinalPayout))
  {
    RecognisesEveryKind(UnderlyingAsset);
    RecognisesEveryKind(VanillaOption);
    RecognisesEveryKind(Bond);
    RecognisesEveryKind(CouponSchedule);
    RecognisesEveryKind(FinalPayout);
  }

  lemma ReverseConvertibleTemplatePorts()
    ensures Template(UnderlyingAsset).outputs[0].id == "price"
    ensures Template(VanillaOption).inputs[0].id == "underlying" && Template(VanillaOption).outputs[0].id == "payoff"
    ensures Template(Bond).outputs[0].id == "value"
    ensures |Template(FinalPayout).inputs| == 2
    ensures Template(FinalPayout).inputs[0].id == "finalPrice" && Template(FinalPayout).inputs[1].id == "knockedIn"
  {
  }

  lemma ReverseConvertibleEndpoints(underlying: Brick, vanillaOption: Brick, bond: Brick, couponSchedule: Brick,
                                    finalPayout: Brick)
    requires |underlying.outputs| > 0 && underlying.outputs[0].id == "price"
    requires |vanillaOption.inputs| > 0 && vanillaOption.inputs[0].id == "underlying"
    requires |vanillaOption.outputs| > 0 && vanillaOption.outputs[0].id == "payoff"
    requires |bond.outputs| > 0 && bond.outputs[0].id == "value"
    requires |finalPayout.inputs| > 1 && finalPayout.inputs[0].id == "finalPrice" && finalPayout.inputs[1].id == "knockedIn"
    ensures EndpointsResolve(ReverseConvertible(underlying, vanillaOption, bond, couponSchedule, finalPayout),
                             CreateReverseConvertibleConnections())
  {
    var b := ReverseConvertible(underlying, vanillaOption, bond, couponSchedule, finalPayout);
    var c := CreateReverseConvertibleConnections();
    ResolvesVia(b, c[0], 0, 0, 1, 0);
    ResolvesVia(b, c[1], 1, 0, 4, 0);
    ResolvesVia(b, c[2], 2, 0, 4, 1);
  }

  lemma ReverseConvertibleIds(underlying: Brick, vanillaOption: Brick, bond: Brick, couponSchedule: Brick,
                              finalPayout: Brick)
    ensures var b := ReverseConvertible(underlying, vanillaOption, bond, couponSchedule, finalPayout);
      && Ids(b) == ["underlying-1", "option-1", "bond-1", "schedule-1", "payout-1"]
      && UniqueBrickIds(b)
  {
  }

  lemma ReverseConvertibleConnectionsDistinct()
    ensures UniqueConnectionIds(CreateReverseConvertibleConnections())
    ensures FanInAtMostOne(CreateReverseConvertibleConnections())
  {
  }

  /** The reverse convertible: five bricks with distinct ids, and three connections that all resolve, one per input port. */
  lemma ReverseConvertibleWellFormed()
    ensures Ids(CreateReverseConvertible()) == ["underlying-1", "option-1", "bond-1", "schedule-1", "payout-1"]
    ensures WellFormedGraph(CreateReverseConvertible(), CreateReverseConvertibleConnections())
  {
    ReverseConvertibleBuilt();
    ReverseConvertibleTemplatePorts();
    ReverseConvertibleIds(Template(UnderlyingAsset), Template(VanillaOption), Template(Bond),
                          Template(CouponSchedule), Template(FinalPayout));
    ReverseConvertibleConnectionsDistinct();
    ReverseConvertibleEndpoints(Template(UnderlyingAsset), Template(VanillaOption), Template(Bond),
                                Template(CouponSchedule), Template(FinalPayout));
  }

  // ---------------------------------------------------------------------------
  // Twin win

  lemma TwinWinBuilt()
    ensures CreateTwinWinNote()
            == TwinWinNote(Template(UnderlyingAsset), Template(VanillaOption), Template(VanillaOption), Template(Sum))
  {
    RecognisesEveryKind(UnderlyingAsset);
    RecognisesEveryKind(VanillaOption);
    RecognisesEveryKind(Sum);
  }

  lemma TwinWinTemplatePorts()
    ensures Template(UnderlyingAsset).outputs[0].id == "price"
    ensures Template(VanillaOption).inputs[0].id == "underlying" && Template(VanillaOption).outputs[0].id == "payoff"
    ensures |Template(Sum).inputs| == 2 && Template(Sum).inputs[0].id == "input1" && Template(Sum).inputs[1].id == "input2"
  {
  }

  lemma TwinWinEndpoints(underlying: Brick, callOption: Brick, putOption: Brick, sum: Brick)
    requires |underlying.outputs| > 0 && underlying.outputs[0].id == "price"
    requires |callOption.inputs| > 0 && callOption.inputs[0].id == "underlying"
    requires |callOption.outputs| > 0 && callOption.outputs[0].id == "payoff"
    requires |putOption.inputs| > 0 && putOption.inputs[0].id == "underlying"
    requires |putOption.outputs| > 0 && putOption.outputs[0].id == "payoff"
    requires |sum.inputs| > 1 && sum.inputs[0].id == "input1" && sum.inputs[1].id == "input2"
    ensures EndpointsResolve(TwinWinNote(underlying, callOption, putOption, sum), CreateTwinWinConnections())
  {
    var b := TwinWinNote(underlying, callOption, putOption, sum);
    var c := CreateTwinWinConnections();
    ResolvesVia(b, c[0], 0, 0, 1, 0);
    ResolvesVia(b, c[1], 0, 0, 2, 0);
    ResolvesVia(b, c[2], 1, 0, 3, 0);
    ResolvesVia(b, c[3], 2, 0, 3, 1);
  }

  lemma TwinWinIds(underlying: Brick, callOption: Brick, putOption: Brick, sum: Brick)
    ensures var b := TwinWinNote(underlying, callOption, putOption, sum);
      Ids(b) == ["underlying-1", "call-1", "put-1", "sum-1"] && UniqueBrickIds(b)
  {
  }

  lemma TwinWinConnectionsDistinct()
    ensures UniqueConnectionIds(CreateTwinWinConnections()) && FanInAtMostOne(CreateTwinWinConnections())
  {
  }

  /** The twin win note: four bricks with distinct ids, and four connections that all resolve, one per input port. */
  lemma TwinWinWellFormed()
    ensures Ids(CreateTwinWinNote()) == ["underlying-1", "call-1", "put-1", "sum-1"]
    ensures WellFormedGraph(CreateTwinWinNote(), CreateTwinWinConnections())
  {
    TwinWinBuilt();
    TwinWinTemplatePorts();
    TwinWinIds(Template(UnderlyingAsset), Template(VanillaOption), Template(VanillaOption), Template(Sum));
    TwinWinConnectionsDistinct();
    TwinWinEndpoints(Template(UnderlyingAsset), Template(VanillaOption), Template(VanillaOption), Template(Sum));
  }

  /** Both legs of the twin win are long vanillas on strike 4000 with notional 1000, one call and one put. */
  lemma TwinWinLegs()
    ensures var b := CreateTwinWinNote();
      && |b| == 4
      && b[1].kind == VanillaOption && b[2].kind == VanillaOption
      && b[1].properties == map["optionType" := Str("call"), "position" := Str("long"),
                                "strike" := Num(4000.0), "notional" := Num(1000.0)]
      && b[2].properties == map["optionType" := Str("put"), "position" := Str("long"),
                                "strike" := Num(4000.0), "notional" := Num(1000.0)]
  {
    TwinWinBuilt();
  }

  // ---------------------------------------------------------------------------
  // Accumulator

  lemma AccumulatorBuilt()
    ensures CreateAccumulator()
            == Accumulator(Template(UnderlyingAsset), Template(CouponAccumulator), Template(RangeOption), Template(Timer))
  {
    RecognisesEveryKind(UnderlyingAsset);
    RecognisesEveryKind(CouponAccumulator);
    RecognisesEveryKind(RangeOption);
    RecognisesEveryKind(Timer);
  }

  lemma AccumulatorTemplatePorts()
    ensures Template(UnderlyingAsset).outputs[0].id == "price"
    ensures Template(RangeOption).inputs[0].id == "underlying" && Template(RangeOption).outputs[0].id == "payoff"
    ensures Template(CouponAccumulator).inputs[0].id == "condition"
  {
  }

  lemma AccumulatorEndpoints(underlying: Brick, couponAccumulator: Brick, rangeOption: Brick, timer: Brick)
    requires |underlying.outputs| > 0 && underlying.outputs[0].id == "price"
    requires |rangeOption.inputs| > 0 && rangeOption.inputs[0].id == "underlying"
    requires |rangeOption.outputs| > 0 && rangeOption.outputs[0].id == "payoff"
    requires |couponAccumulator.inputs| > 0 && couponAccumulator.inputs[0].id == "condition"
    ensures EndpointsResolve(Accumulator(underlying, couponAccumulator, rangeOption, timer), CreateAccumulatorConnections())
  {
    var b := Accumulator(underlying, couponAccumulator, rangeOption, timer);
    var c := CreateAccumulatorConnections();
    ResolvesVia(b, c[0], 0, 0, 2, 0);
    ResolvesVia(b, c[1], 2, 0, 1, 0);
  }

  lemma AccumulatorIds(underlying: Brick, couponAccumulator: Brick, rangeOption: Brick, timer: Brick)
    ensures var b := Accumulator(underlying, couponAccumulator, rangeOption, timer);
      Ids(b) == ["underlying-1", "accumulator-1", "range-1", "timer-1"] && UniqueBrickIds(b)
  {
  }

  lemma AccumulatorConnectionsDistinct()
    ensures UniqueConnectionIds(CreateAccumulatorConnections()) && FanInAtMostOne(CreateAccumulatorConnections())
  {
  }

  /** The accumulator: four bricks with distinct ids, and two connections that both resolve, one per input port. */
  lemma AccumulatorWellFormed()
    ensures Ids(CreateAccumulator()) == ["underlying-1", "accumulator-1", "range-1", "timer-1"]
    ensures WellFormedGraph(CreateAccumulator(), CreateAccumulatorConnections())
  {
    AccumulatorBuilt();
    AccumulatorTemplatePorts();
    AccumulatorIds(Template(UnderlyingAsset), Template(CouponAccumulator), Template(RangeOption), Template(Timer));
    AccumulatorConnectionsDistinct();
    AccumulatorEndpoints(Template(UnderlyingAsset), Template(CouponAccumulator), Template(RangeOption), Template(Timer));
  }

  // ---------------------------------------------------------------------------
  // The product list

  /** Exactly four products, in display order. */
  lemma ProductOrder()
    ensures ProductIds(GetProductTemplates()) == ["snowball-note", "reverse-convertible", "twin-win", "accumulator"]
  {
    var ts := GetProductTemplates();
    FourIds(ts, "snowball-note", "reverse-convertible", "twin-win", "accumulator");
  }

  lemma FourIds(ts: seq<ProductTemplate>, a: string, b: string, c: string, d: string)
    requires |ts| == 4 && ts[0].id == a && ts[1].id == b && ts[2].id == c && ts[3].id == d
    ensures ProductIds(ts) == [a, b, c, d]
  {
  }

  /** Configured property records replace the catalog defaults: the snowball payout drops the default `cap`. */
  lemma ConfiguredRecordsReplaceDefaults()
    ensures "cap" in Template(FinalPayout).properties
    ensures var b := CreateSnowballNote();
      |b| == 7 && b[6].kind == FinalPayout && "cap" !in b[6].properties
      && b[6].properties == map["protectionLevel" := Num(0.8), "participationRate" := Num(1.0)]
  {
    PayoutDefaultHasCap();
    SnowballPayoutConfigured();
  }

  /** The snowball product's last brick is its payout, with the configured record. */
  lemma SnowballPayoutConfigured()
    ensures var b := CreateSnowballNote();
      |b| == 7 && b[6].kind == FinalPayout
      && b[6].properties == map["protectionLevel" := Num(0.8), "participationRate" := Num(1.0)]
  {
    var u, c, bt, at := Template(UnderlyingAsset), Template(CouponSchedule), Template(BarrierTrigger), Template(AutocallTrigger);
    var m, k, f := Template(MemoryBuffer), Template(KnockInCheck), Template(FinalPayout);
    SnowballBuilt();
    SnowballPayoutRecord(u, c, bt, at, m, k, f);
  }

  /** The catalog's payout brick defaults to a record with a `cap`. */
  lemma PayoutDefaultHasCap()
    ensures "cap" in Template(FinalPayout).properties
  {
    assert Template(FinalPayout).properties == DefaultProperties(FinalPayout);
  }

  /** Whatever payout brick is looked up, the snowball graph's last brick carries the configured payout record. */
  lemma SnowballPayoutRecord(underlying: Brick, couponSchedule: Brick, barrierTrigger: Brick, autocallTrigger: Brick,
                             memoryBuffer: Brick, knockInCheck: Brick, finalPayout: Brick)
    ensures var b := SnowballNote(underlying, couponSchedule, barrierTrigger, autocallTrigger, memoryBuffer,
                                  knockInCheck, finalPayout);
      |b| == 7 && b[6].kind == finalPayout.kind
      && b[6].properties == map["protectionLevel" := Num(0.8), "participationRate" := Num(1.0)]
  {
  }
}

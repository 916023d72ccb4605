/**
 * What the simulation engine makes of the four product graphs: the step
 * payoff at any spot price and the trigger events reported there.
 */
module ProductPayoffs {
  import opened Wrappers
  import opened Seqs
  import opened Bricks
  import opened Catalog
  import opened Scenarios
  import opened Engine
  import opened Products
  import opened ProductProperties
  import opened EngineProperties

  /** The option bricks of a twin win graph are its two legs, in order. */
  lemma TwinWinOptions(underlying: Brick, callOption: Brick, putOption: Brick, sum: Brick)
    requires underlying.category == AssetCategory && sum.category == MathCategory
    requires callOption.category == OptionCategory && putOption.category == OptionCategory
    ensures var b := TwinWinNote(underlying, callOption, putOption, sum);
      Filter(b, IsOption) == [b[1], b[2]]
  {
    var b := TwinWinNote(underlying, callOption, putOption, sum);
    assert b[..1][..0] == [];
    assert Filter(b[..1], IsOption) == [];
    assert b[..2][..1] == b[..1];
    assert Filter(b[..2], IsOption) == [b[1]];
    assert b[..3][..2] == b[..2];
    assert Filter(b[..3], IsOption) == [b[1], b[2]];
    assert b[..3] == b[..|b| - 1];
  }

  /** A long call and a long put on strike 4000 with notional 1000 together pay `|spot - 4000|`. */
  lemma StraddlePays(call: Brick, put: Brick, spot: real)
    requires call.category == OptionCategory && call.kind == VanillaOption
    requires put.category == OptionCategory && put.kind == VanillaOption
    requires call.properties == map["optionType" := Str("call"), "position" := Str("long"),
                                    "strike" := Num(4000.0), "notional" := Num(1000.0)]
    requires put.properties == map["optionType" := Str("put"), "position" := Str("long"),
                                   "strike" := Num(4000.0), "notional" := Num(1000.0)]
    ensures Evaluable(call) && Evaluable(put)
    ensures SumPayoffs([call, put], spot) == Abs(spot - 4000.0)
  {
    assert [call, put][..1] == [call];
    assert [call][..0] == [];
    assert SumPayoffs([call, put], spot) == SumPayoffs([call], spot) + OptionPayoff(put, spot);
    assert SumPayoffs([call], spot) == OptionPayoff(call, spot);
    assert OptionPayoff(call, spot) == VanillaPayoff(true, true, 4000.0, 1000.0, spot) == Max(0.0, spot - 4000.0);
    assert OptionPayoff(put, spot) == VanillaPayoff(false, true, 4000.0, 1000.0, spot) == Max(0.0, 4000.0 - spot);
  }

  /** A twin win graph pays `|spot - 4000|`: a long call plus a long put on the same strike, at full notional. */
  lemma TwinWinNotePayoff(underlying: Brick, callOption: Brick, putOption: Brick, sum: Brick, spot: real)
    requires underlying.category == AssetCategory && sum.category == MathCategory
    requires callOption.category == OptionCategory && callOption.kind == VanillaOption
    requires putOption.category == OptionCategory && putOption.kind == VanillaOption
    ensures AllEvaluable(TwinWinNote(underlying, callOption, putOption, sum))
    ensures StepPayoff(TwinWinNote(underlying, callOption, putOption, sum), spot) == Abs(spot - 4000.0)
  {
    var b := TwinWinNote(underlying, callOption, putOption, sum);
    TwinWinOptions(underlying, callOption, putOption, sum);
    StraddlePays(b[1], b[2], spot);
  }

  /** The twin win product's step payoff is `|spot - 4000|` at every spot price. */
  lemma TwinWinStraddle(spot: real)
    ensures AllEvaluable(CreateTwinWinNote())
    ensures StepPayoff(CreateTwinWinNote(), spot) == Abs(spot - 4000.0)
  {
    TwinWinBuilt();
    TwinWinNotePayoff(Template(UnderlyingAsset), Template(VanillaOption), Template(VanillaOption), Template(Sum), spot);
  }

  // ---------------------------------------------------------------------------
  // Reverse convertible

  /** A reverse convertible graph pays what its short put on 3200 pays: `-max(0, 3200 - spot)`. */
  lemma ReverseConvertibleNotePayoff(underlying: Brick, vanillaOption: Brick, bond: Brick, couponSchedule: Brick,
                                     finalPayout: Brick, spot: real)
    requires underlying.category == AssetCategory && bond.category == AssetCategory
    requires couponSchedule.category == FlowCategory && finalPayout.category == FlowCategory
    requires vanillaOption.category == OptionCategory && vanillaOption.kind == VanillaOption
    ensures var b := ReverseConvertible(underlying, vanillaOption, bond, couponSchedule, finalPayout);
      AllEvaluable(b) && StepPayoff(b, spot) == -Max(0.0, 3200.0 - spot)
  {
    var b := ReverseConvertible(underlying, vanillaOption, bond, couponSchedule, finalPayout);
    FilterSingle(b, IsOption, 1);
    var o := b[1];
    assert [o][..0] == [];
    assert SumPayoffs([o], spot) == OptionPayoff(o, spot);
    assert OptionPayoff(o, spot) == VanillaPayoff(false, false, 3200.0, 1000.0, spot) == -Max(0.0, 3200.0 - spot);
  }

  /** The reverse convertible product pays `-max(0, 3200 - spot)` at every spot price. */
  lemma ReverseConvertibleShortPut(spot: real)
    ensures AllEvaluable(CreateReverseConvertible())
    ensures StepPayoff(CreateReverseConvertible(), spot) == -Max(0.0, 3200.0 - spot)
  {
    ReverseConvertibleBuilt();
    ReverseConvertibleNotePayoff(Template(UnderlyingAsset), Template(VanillaOption), Template(Bond),
                                 Template(CouponSchedule), Template(FinalPayout), spot);
  }

  // ---------------------------------------------------------------------------
  // Snowball note

  /** A snowball graph has no option brick, so it pays nothing per step. */
  lemma SnowballNotePayoff(underlying: Brick, couponSchedule: Brick, barrierTrigger: Brick, autocallTrigger: Brick,
                           memoryBuffer: Brick, knockInCheck: Brick, finalPayout: Brick, spot: real)
    requires underlying.category == AssetCategory && couponSchedule.category == FlowCategory
    requires barrierTrigger.category == LogicCategory && autocallTrigger.category == LogicCategory
    requires memoryBuffer.category == LogicCategory && knockInCheck.category == LogicCategory
    requires finalPayout.category == FlowCategory
    ensures var b := SnowballNote(underlying, couponSchedule, barrierTrigger, autocallTrigger, memoryBuffer,
                                  knockInCheck, finalPayout);
      AllEvaluable(b) && StepPayoff(b, spot) == 0.0
  {
    var b := SnowballNote(underlying, couponSchedule, barrierTrigger, autocallTrigger, memoryBuffer,
                          knockInCheck, finalPayout);
    FilterNone(b, IsOption);
  }

  /** A barrier trigger set to `below 3200` fires exactly at spot prices at or below 3200. */
  lemma BelowBarrierFires(t: Brick, spot: real)
    requires t.properties == map["barrierLevel" := Num(3200.0), "triggerType" := Str("below"), "continuous" := Bool(true)]
    ensures BarrierEvents([t], spot) == if spot <= 3200.0 then [BarrierEvent("below", 3200.0)] else []
  {
    assert [t][..0] == [];
    assert PropEquals(t, "triggerType", Str("below"));
    assert !PropEquals(t, "triggerType", Str("above")) && !PropEquals(t, "triggerType", Str("touch"));
  }

  /** An autocall trigger set to 4000 fires exactly at spot prices at or above 4000. */
  lemma AutocallFires(t: Brick, spot: real)
    requires IsNum(t.properties, "autocallLevel") && t.properties["autocallLevel"] == Num(4000.0)
    ensures AutocallEvents([t], spot) == if spot >= 4000.0 then [AutocallEvent(4000.0)] else []
  {
    assert [t][..0] == [];
  }

  /** A snowball graph reports its knock-in barrier at or below 3200 and its autocall at or above 4000, in that order. */
  lemma SnowballNoteEvents(underlying: Brick, couponSchedule: Brick, barrierTrigger: Brick, autocallTrigger: Brick,
                           memoryBuffer: Brick, knockInCheck: Brick, finalPayout: Brick, spot: real)
    requires underlying.kind == UnderlyingAsset && couponSchedule.kind == CouponSchedule
    requires barrierTrigger.kind == BarrierTrigger && autocallTrigger.kind == AutocallTrigger
    requires memoryBuffer.kind == MemoryBuffer && knockInCheck.kind == KnockInCheck && finalPayout.kind == FinalPayout
    ensures TriggerEvents(SnowballNote(underlying, couponSchedule, barrierTrigger, autocallTrigger, memoryBuffer,
                                       knockInCheck, finalPayout), spot)
            == (if spot <= 3200.0 then [BarrierEvent("below", 3200.0)] else [])
               + (if spot >= 4000.0 then [AutocallEvent(4000.0)] else [])
  {
    var b := SnowballNote(underlying, couponSchedule, barrierTrigger, autocallTrigger, memoryBuffer,
                          knockInCheck, finalPayout);
    SnowballGraphEvents(b, spot);
  }

  /** A seven-brick graph whose only triggers are a `below 3200` barrier third and a 4000 autocall fourth. */
  lemma SnowballGraphEvents(b: seq<Brick>, spot: real)
    requires |b| == 7 && b[2].kind == BarrierTrigger && b[3].kind == AutocallTrigger
    requires forall i :: 0 <= i < 7 && i != 2 ==> b[i].kind != BarrierTrigger
    requires forall i :: 0 <= i < 7 && i != 3 ==> b[i].kind != AutocallTrigger
    requires b[2].properties == map["barrierLevel" := Num(3200.0), "triggerType" := Str("below"), "continuous" := Bool(true)]
    requires IsNum(b[3].properties, "autocallLevel") && b[3].properties["autocallLevel"] == Num(4000.0)
    ensures TriggerEvents(b, spot)
            == (if spot <= 3200.0 then [BarrierEvent("below", 3200.0)] else [])
               + (if spot >= 4000.0 then [AutocallEvent(4000.0)] else [])
  {
    SnowballBarrierTrigger(b, spot);
    SnowballAutocallTrigger(b, spot);
  }

  /** The barrier trigger of a snowball graph is its third brick, set to `below 3200`. */
  lemma SnowballBarrierTrigger(b: seq<Brick>, spot: real)
    requires |b| == 7 && b[2].kind == BarrierTrigger
    requires forall i :: 0 <= i < 7 && i != 2 ==> b[i].kind != BarrierTrigger
    requires b[2].properties == map["barrierLevel" := Num(3200.0), "triggerType" := Str("below"), "continuous" := Bool(true)]
    ensures BarrierEvents(Filter(b, IsBarrierTrigger), spot) == if spot <= 3200.0 then [BarrierEvent("below", 3200.0)] else []
  {
    FilterSingle(b, IsBarrierTrigger, 2);
    BelowBarrierFires(b[2], spot);
  }

  /** The autocall trigger of a snowball graph is its fourth brick, set to 4000. */
  lemma SnowballAutocallTrigger(b: seq<Brick>, spot: real)
    requires |b| == 7 && b[3].kind == AutocallTrigger
    requires forall i :: 0 <= i < 7 && i != 3 ==> b[i].kind != AutocallTrigger
    requires IsNum(b[3].properties, "autocallLevel") && b[3].properties["autocallLevel"] == Num(4000.0)
    ensures AutocallEvents(Filter(b, IsAutocallTrigger), spot) == if spot >= 4000.0 then [AutocallEvent(4000.0)] else []
  {
    FilterSingle(b, IsAutocallTrigger, 3);
    AutocallFires(b[3], spot);
  }

  /** The snowball product pays nothing per step at any spot price. */
  lemma SnowballUnpriced(spot: real)
    ensures AllEvaluable(CreateSnowballNote()) && StepPayoff(CreateSnowballNote(), spot) == 0.0
  {
    var u, c, bt, at := Template(UnderlyingAsset), Template(CouponSchedule), Template(BarrierTrigger), Template(AutocallTrigger);
    var m, k, f := Template(MemoryBuffer), Template(KnockInCheck), Template(FinalPayout);
    SnowballBuilt();
    SnowballNotePayoff(u, c, bt, at, m, k, f, spot);
  }

  /** The snowball product reports the knock-in barrier at or below 3200 and the autocall at or above 4000. */
  lemma SnowballTriggers(spot: real)
    ensures TriggerEvents(CreateSnowballNote(), spot)
            == (if spot <= 3200.0 then [BarrierEvent("below", 3200.0)] else [])
               + (if spot >= 4000.0 then [AutocallEvent(4000.0)] else [])
  {
    var u, c, bt, at := Template(UnderlyingAsset), Template(CouponSchedule), Template(BarrierTrigger), Template(AutocallTrigger);
    var m, k, f := Template(MemoryBuffer), Template(KnockInCheck), Template(FinalPayout);
    SnowballBuilt();
    SnowballNoteEvents(u, c, bt, at, m, k, f, spot);
  }

  // ---------------------------------------------------------------------------
  // Accumulator

  /** An accumulator graph's only option brick is a range option, which the engine does not price. */
  lemma AccumulatorNotePayoff(underlying: Brick, couponAccumulator: Brick, rangeOption: Brick, timer: Brick, spot: real)
    requires underlying.category == AssetCategory && couponAccumulator.category == FlowCategory
    requires rangeOption.category == OptionCategory && rangeOption.kind == RangeOption
    requires timer.category == MathCategory
    ensures var b := Accumulator(underlying, couponAccumulator, rangeOption, timer);
      AllEvaluable(b) && StepPayoff(b, spot) == 0.0
  {
    var b := Accumulator(underlying, couponAccumulator, rangeOption, timer);
    FilterSingle(b, IsOption, 2);
    assert [b[2]][..0] == [];
    assert SumPayoffs([b[2]], spot) == OptionPayoff(b[2], spot) == 0.0;
  }

  /** The accumulator product pays nothing per step at any spot price. */
  lemma AccumulatorUnpriced(spot: real)
    ensures AllEvaluable(CreateAccumulator()) && StepPayoff(CreateAccumulator(), spot) == 0.0
  {
    AccumulatorBuilt();
    AccumulatorNotePayoff(Template(UnderlyingAsset), Template(CouponAccumulator), Template(RangeOption), Template(Timer), spot);
  }
}

/** The gravimetric liquid-handling planner: the four pipetting heights
    clamped to the labware floor, and the runner that performs one aspirate
    or dispense as a fixed sequence of steps. The pipette, the delay callable
    and the user callbacks are foreign objects; the model records every call
    made to any of them, in order, in one log held by a `Bench`. */
module LiquidClass {
  import opened Common

  /** `LABWARE_BOTTOM_CLEARANCE`, in mm. */
  const LabwareBottomClearance: real := 1.5

  datatype LiquidSurfaceHeights = LiquidSurfaceHeights(above: real, below: real)

  datatype PipettingHeights = PipettingHeights(start: LiquidSurfaceHeights, end: LiquidSurfaceHeights)

  /** The parts of `LiquidClassSettings` the planner reads. */
  datatype FlowSettings = FlowSettings(flowRate: real, delay: real)
  datatype VolumeSettings = VolumeSettings(flowRate: real, volume: real)
  datatype MoveSettings = MoveSettings(distance: real, speed: real)
  datatype LiquidClassSettings = LiquidClassSettings(
    aspirate: FlowSettings,
    dispense: FlowSettings,
    blowOut: VolumeSettings,
    wetAirGap: VolumeSettings,
    submerge: MoveSettings,
    retract: MoveSettings,
    traverseSpeed: real)

  datatype AssertionKind =
    | NoRetractDistance | NoSubmergeDistance
    | NeitherAspirateNorDispense | BothAspirateAndDispense
    | NoTraverseSpeed

  datatype LiquidClassError = AssertionError(kind: AssertionKind)

  /** Python truthiness of an `Optional[float]`: present and nonzero. */
  predicate Truthy(v: Option<real>)
  {
    v.Some? && v.value != 0.0
  }

  /** `h` is `target` raised to the labware floor, i.e. `max(target, 1.5)`. */
  predicate ClampedTo(h: real, target: real)
  {
    h >= LabwareBottomClearance && h >= target
    && (h == target || h == LabwareBottomClearance)
  }

  /** `_create_pipetting_heights`: above and below the start and end liquid
      levels, never lower than the labware floor. */
  function CreatePipettingHeights(startMm: real, endMm: real, lc: LiquidClassSettings)
    : (r: Result<PipettingHeights, LiquidClassError>)
    ensures r.Success? <==> lc.retract.distance != 0.0 && lc.submerge.distance != 0.0
    ensures lc.retract.distance == 0.0 ==> r == Failure(AssertionError(NoRetractDistance))
    ensures lc.retract.distance != 0.0 && lc.submerge.distance == 0.0 ==>
      r == Failure(AssertionError(NoSubmergeDistance))
    ensures r.Success? ==>
      && ClampedTo(r.value.start.above, startMm + lc.retract.distance)
      && ClampedTo(r.value.start.below, startMm - lc.submerge.distance)
      && ClampedTo(r.value.end.above, endMm + lc.retract.distance)
      && ClampedTo(r.value.end.below, endMm - lc.submerge.distance)
  {
    if lc.retract.distance == 0.0 then Failure(AssertionError(NoRetractDistance))
    else if lc.submerge.distance == 0.0 then Failure(AssertionError(NoSubmergeDistance))
    else
      Success(PipettingHeights(
        start := LiquidSurfaceHeights(
          above := MaxReal(startMm + lc.retract.distance, LabwareBottomClearance),
          below := MaxReal(startMm - lc.submerge.distance, LabwareBottomClearance)),
        end := LiquidSurfaceHeights(
          above := MaxReal(endMm + lc.retract.distance, LabwareBottomClearance),
          below := MaxReal(endMm - lc.submerge.distance, LabwareBottomClearance))))
  }

  /** With positive distances, "above" is never under "below", and a lower
      liquid level never gives higher heights. */
  lemma HeightsAreOrdered(startMm: real, endMm: real, lc: LiquidClassSettings)
    requires lc.retract.distance > 0.0 && lc.submerge.distance > 0.0
    ensures CreatePipettingHeights(startMm, endMm, lc).Success?
    ensures var h := CreatePipettingHeights(startMm, endMm, lc).value;
      h.start.above >= h.start.below && h.end.above >= h.end.below
      && (endMm <= startMm ==> h.end.above <= h.start.above && h.end.below <= h.start.below)
  {
  }

  /** Where the pipette is sent: `well.top()` or `well.bottom(z)`. */
  datatype Location = WellTop | WellBottom(z: real)

  /** The user callbacks a `PipetteLiquidClass` may hold. */
  datatype Hook = PreAspirate | PostAspirate | PreDispense | PostDispense

  /** One call made by the planner to a foreign object. */
  datatype Call =
    | MoveTo(location: Location, forceDirect: bool, speed: Option<real>)
    | AspirateCall(volume: real)
    | DispenseCall(amount: Option<real>)
    | BlowOutCall
    | SetDispenseFlowRate(rate: real)
    | Delay(seconds: real)
    | Callback(hook: Hook)
    | UpdateAffectedWells(aspirate: Option<real>, dispense: Option<real>)

  /** The pipette (`InstrumentContext`) together with the delay callable and
      the callbacks: every call lands in `calls`. The volume bookkeeping is
      an assumption about the pipette: aspirating adds, dispensing an amount
      removes it (never below empty), dispensing with no amount and blowing
      out empty the tip. */
  class Bench {
    var calls: seq<Call>
    var currentVolume: real
    var defaultSpeed: real
    var aspirateFlowRate: real
    var dispenseFlowRate: real
    var blowOutFlowRate: real

    constructor (currentVolume: real, dispenseFlowRate: real)
      ensures calls == [] && this.currentVolume == currentVolume
      ensures this.dispenseFlowRate == dispenseFlowRate
    {
      calls := [];
      this.currentVolume := currentVolume;
      defaultSpeed := 0.0;
      aspirateFlowRate := 0.0;
      this.dispenseFlowRate := dispenseFlowRate;
      blowOutFlowRate := 0.0;
    }

    method MoveTo(location: Location, forceDirect: bool, speed: Option<real>)
      modifies this`calls
      ensures calls == old(calls) + [Call.MoveTo(location, forceDirect, speed)]
    {
      calls := calls + [Call.MoveTo(location, forceDirect, speed)];
    }

    method Aspirate(volume: real)
      modifies this`calls, this`currentVolume
      ensures calls == old(calls) + [AspirateCall(volume)]
      ensures currentVolume == old(currentVolume) + volume
    {
      calls := calls + [AspirateCall(volume)];
      currentVolume := currentVolume + volume;
    }

    method Dispense(amount: Option<real>)
      modifies this`calls, this`currentVolume
      ensures calls == old(calls) + [DispenseCall(amount)]
      ensures currentVolume == if amount.None? then 0.0 else MaxReal(old(currentVolume) - amount.value, 0.0)
    {
      calls := calls + [DispenseCall(amount)];
      currentVolume := if amount.None? then 0.0 else MaxReal(currentVolume - amount.value, 0.0);
    }

    method BlowOut()
      modifies this`calls, this`currentVolume
      ensures calls == old(calls) + [BlowOutCall] && currentVolume == 0.0
    {
      calls := calls + [BlowOutCall];
      currentVolume := 0.0;
    }

    method SetDispenseRate(rate: real)
      modifies this`calls, this`dispenseFlowRate
      ensures calls == old(calls) + [SetDispenseFlowRate(rate)] && dispenseFlowRate == rate
    {
      calls := calls + [SetDispenseFlowRate(rate)];
      dispenseFlowRate := rate;
    }

    /** The runner's `delay_method`. */
    method DelayFor(seconds: real)
      modifies this`calls
      ensures calls == old(calls) + [Delay(seconds)]
    {
      calls := calls + [Delay(seconds)];
    }

    method Invoke(hook: Hook)
      modifies this`calls
      ensures calls == old(calls) + [Callback(hook)]
    {
      calls := calls + [Callback(hook)];
    }

    /** `liquid_tracker.update_affected_wells`. */
    method UpdateTracker(aspirate: Option<real>, dispense: Option<real>)
      modifies this`calls
      ensures calls == old(calls) + [UpdateAffectedWells(aspirate, dispense)]
    {
      calls := calls + [UpdateAffectedWells(aspirate, dispense)];
    }
  }

  /** `LiquidSettingsRunnerConfig` without the pipette and well objects. */
  datatype RunnerConfig = RunnerConfig(
    heights: PipettingHeights,
    settings: LiquidClassSettings,
    aspirate: Option<real>,
    dispense: Option<real>)

  /** A constructed `LiquidSettingsRunner`: exactly one of aspirate and
      dispense is given. */
  datatype LiquidSettingsRunner = LiquidSettingsRunner(cfg: RunnerConfig)
  {
    predicate Valid()
    {
      cfg.aspirate.Some? != cfg.dispense.Some?
    }
  }

  /** `LiquidSettingsRunner.__init__` and its two assertions. */
  function NewLiquidSettingsRunner(cfg: RunnerConfig): (r: Result<LiquidSettingsRunner, LiquidClassError>)
    ensures r.Success? <==> (cfg.aspirate.Some? != cfg.dispense.Some?)
    ensures r.Success? ==> r.value.Valid() && r.value.cfg == cfg
    ensures cfg.aspirate.None? && cfg.dispense.None? ==> r == Failure(AssertionError(NeitherAspirateNorDispense))
    ensures cfg.aspirate.Some? && cfg.dispense.Some? ==> r == Failure(AssertionError(BothAspirateAndDispense))
  {
    if cfg.aspirate.None? && cfg.dispense.None? then Failure(AssertionError(NeitherAspirateNorDispense))
    else if cfg.aspirate.Some? && cfg.dispense.Some? then Failure(AssertionError(BothAspirateAndDispense))
    else Success(LiquidSettingsRunner(cfg))
  }

  function HookCalls(hook: Option<Hook>): seq<Call>
  {
    if hook.Some? then [Callback(hook.value)] else []
  }

  /** `_run_gather_air_gaps`. */
  function AirGapCalls(cfg: RunnerConfig): seq<Call>
  {
    if Truthy(cfg.aspirate) && cfg.settings.wetAirGap.volume != 0.0
    then [AspirateCall(cfg.settings.wetAirGap.volume)] else []
  }

  /** `_run_submerge`: first above the start level (but not under the end
      level's submerged height), then straight down at submerge speed. */
  function SubmergeCalls(cfg: RunnerConfig): seq<Call>
  {
    [Call.MoveTo(WellBottom(MaxReal(cfg.heights.start.above, cfg.heights.end.below)), false, None),
     Call.MoveTo(WellBottom(cfg.heights.end.below), true, Some(cfg.settings.submerge.speed))]
  }

  /** `_run_aspirate`. */
  function AspirateCalls(cfg: RunnerConfig): seq<Call>
  {
    if Truthy(cfg.aspirate) then [AspirateCall(cfg.aspirate.value)] else []
  }

  /** `_run_dispense`, given the volume held before it and the dispense flow
      rate in force: leftover volume is pushed out at the wet-air-gap rate. */
  function DispenseCalls(cfg: RunnerConfig, volume: real, rate: real): seq<Call>
  {
    if !Truthy(cfg.dispense) then []
    else if MaxReal(volume - cfg.dispense.value, 0.0) > 0.0 then
      [DispenseCall(cfg.dispense), SetDispenseFlowRate(cfg.settings.wetAirGap.flowRate),
       DispenseCall(None), SetDispenseFlowRate(rate)]
    else [DispenseCall(cfg.dispense)]
  }

  /** The time `_run_delay` passes to the delay method. */
  function DelayTime(cfg: RunnerConfig): real
  {
    if Truthy(cfg.aspirate) && cfg.settings.aspirate.delay != 0.0 then cfg.settings.aspirate.delay
    else if Truthy(cfg.dispense) && cfg.settings.dispense.delay != 0.0 then cfg.settings.dispense.delay
    else 0.0
  }

  /** `_run_retract`. */
  function RetractCalls(cfg: RunnerConfig): seq<Call>
  {
    [Call.MoveTo(WellBottom(cfg.heights.end.above), true, Some(cfg.settings.retract.speed))]
  }

  /** `_run_blow_out`. */
  function BlowOutCalls(cfg: RunnerConfig): seq<Call>
  {
    if Truthy(cfg.dispense) && cfg.settings.blowOut.volume != 0.0 then [BlowOutCall] else []
  }

  /** The calls of the liquid step: aspirate if aspirating, else dispense. */
  function LiquidCalls(cfg: RunnerConfig, volume: real, rate: real): seq<Call>
  {
    if Truthy(cfg.aspirate) then AspirateCalls(cfg) else DispenseCalls(cfg, volume, rate)
  }

  /** Everything `run` does, in order, from the held volume and dispense
      flow rate it starts with. */
  function RunCalls(cfg: RunnerConfig, pre: Option<Hook>, post: Option<Hook>, volume: real, rate: real)
    : seq<Call>
  {
    PrefixCalls(cfg, pre) + LiquidCalls(cfg, volume, rate) + SuffixCalls(cfg, post)
  }

  /** Approach, pre-submerge callback, air gap and submerge. */
  function PrefixCalls(cfg: RunnerConfig, pre: Option<Hook>): seq<Call>
  {
    [Call.MoveTo(WellTop, false, None)] + HookCalls(pre) + AirGapCalls(cfg) + SubmergeCalls(cfg)
  }

  /** Delay, retract, blow-out, finish and post-emerge callback. */
  function SuffixCalls(cfg: RunnerConfig, post: Option<Hook>): seq<Call>
  {
    [Delay(DelayTime(cfg))] + RetractCalls(cfg) + BlowOutCalls(cfg)
    + [Call.MoveTo(WellTop, true, None)] + HookCalls(post)
  }

  /** The volume held after `run`. */
  function RunVolume(cfg: RunnerConfig, volume: real): real
  {
    if Truthy(cfg.aspirate) then
      volume + (if cfg.settings.wetAirGap.volume != 0.0 then cfg.settings.wetAirGap.volume else 0.0)
      + cfg.aspirate.value
    else if Truthy(cfg.dispense) then 0.0
    else volume
  }

  method RunApproach(b: Bench)
    modifies b`calls
    ensures b.calls == old(b.calls) + [Call.MoveTo(WellTop, false, None)]
  {
    b.MoveTo(WellTop, false, None);
  }

  method RunGatherAirGaps(runner: LiquidSettingsRunner, b: Bench)
    modifies b`calls, b`currentVolume
    ensures b.calls == old(b.calls) + AirGapCalls(runner.cfg)
    ensures b.currentVolume == old(b.currentVolume) +
      (if AirGapCalls(runner.cfg) != [] then runner.cfg.settings.wetAirGap.volume else 0.0)
  {
    if Truthy(runner.cfg.aspirate) && runner.cfg.settings.wetAirGap.volume != 0.0 {
      b.Aspirate(runner.cfg.settings.wetAirGap.volume);
    }
  }

  method RunSubmerge(runner: LiquidSettingsRunner, b: Bench)
    modifies b`calls
    ensures b.calls == old(b.calls) + SubmergeCalls(runner.cfg)
  {
    var startAbove := MaxReal(runner.cfg.heights.start.above, runner.cfg.heights.end.below);
    b.MoveTo(WellBottom(startAbove), false, None);
    var submergedLoc := WellBottom(runner.cfg.heights.end.below);
    b.MoveTo(submergedLoc, true, Some(runner.cfg.settings.submerge.speed));
  }

  method RunAspirate(runner: LiquidSettingsRunner, b: Bench)
    modifies b`calls, b`currentVolume
    ensures b.calls == old(b.calls) + AspirateCalls(runner.cfg)
    ensures b.currentVolume == old(b.currentVolume) + (if Truthy(runner.cfg.aspirate) then runner.cfg.aspirate.value else 0.0)
  {
    if Truthy(runner.cfg.aspirate) {
      b.Aspirate(runner.cfg.aspirate.value);
    }
  }

  method RunDispense(runner: LiquidSettingsRunner, b: Bench)
    modifies b`calls, b`currentVolume, b`dispenseFlowRate
    ensures b.calls == old(b.calls) + DispenseCalls(runner.cfg, old(b.currentVolume), old(b.dispenseFlowRate))
    ensures b.dispenseFlowRate == old(b.dispenseFlowRate)
    ensures b.currentVolume == if Truthy(runner.cfg.dispense) then 0.0 else old(b.currentVolume)
  {
    if Truthy(runner.cfg.dispense) {
      b.Dispense(runner.cfg.dispense);
      if b.currentVolume > 0.0 {
        // temporarily dispense the remainder at the wet-air-gap rate
        var dispFlowRate := b.dispenseFlowRate;
        b.SetDispenseRate(runner.cfg.settings.wetAirGap.flowRate);
        b.Dispense(None);
        b.SetDispenseRate(dispFlowRate);
      }
    }
  }

  method RunDelay(runner: LiquidSettingsRunner, b: Bench)
    modifies b`calls
    ensures b.calls == old(b.calls) + [Delay(DelayTime(runner.cfg))]
  {
    var delayTime: real;
    if Truthy(runner.cfg.aspirate) && runner.cfg.settings.aspirate.delay != 0.0 {
      delayTime := runner.cfg.settings.aspirate.delay;
    } else if Truthy(runner.cfg.dispense) && runner.cfg.settings.dispense.delay != 0.0 {
      delayTime := runner.cfg.settings.dispense.delay;
    } else {
      delayTime := 0.0;
    }
    b.DelayFor(delayTime);
  }

  method RunRetract(runner: LiquidSettingsRunner, b: Bench)
    modifies b`calls
    ensures b.calls == old(b.calls) + RetractCalls(runner.cfg)
  {
    b.MoveTo(WellBottom(runner.cfg.heights.end.above), true, Some(runner.cfg.settings.retract.speed));
  }

  method RunBlowOut(runner: LiquidSettingsRunner, b: Bench)
    modifies b`calls, b`currentVolume
    ensures b.calls == old(b.calls) + BlowOutCalls(runner.cfg)
    ensures b.currentVolume == if BlowOutCalls(runner.cfg) != [] then 0.0 else old(b.currentVolume)
  {
    if Truthy(runner.cfg.dispense) && runner.cfg.settings.blowOut.volume != 0.0 {
      b.BlowOut();
    }
  }

  method RunFinish(b: Bench)
    modifies b`calls
    ensures b.calls == old(b.calls) + [Call.MoveTo(WellTop, true, None)]
  {
    b.MoveTo(WellTop, true, None);
  }

  /** The steps of `run` before the liquid step. */
  method RunPrefix(runner: LiquidSettingsRunner, b: Bench, onPreSubmerge: Option<Hook>)
    modifies b`calls, b`currentVolume
    ensures b.calls == old(b.calls) + PrefixCalls(runner.cfg, onPreSubmerge)
    ensures b.currentVolume == old(b.currentVolume) +
      (if AirGapCalls(runner.cfg) != [] then runner.cfg.settings.wetAirGap.volume else 0.0)
  {
    RunApproach(b);
    if onPreSubmerge.Some? {
      b.Invoke(onPreSubmerge.value);
    }
    RunGatherAirGaps(runner, b);
    RunSubmerge(runner, b);
  }

  /** The steps of `run` after the liquid step. */
  method RunSuffix(runner: LiquidSettingsRunner, b: Bench, onPostEmerge: Option<Hook>)
    modifies b`calls, b`currentVolume
    ensures b.calls == old(b.calls) + SuffixCalls(runner.cfg, onPostEmerge)
    ensures b.currentVolume == if BlowOutCalls(runner.cfg) != [] then 0.0 else old(b.currentVolume)
  {
    RunDelay(runner, b);
    RunRetract(runner, b);
    RunBlowOut(runner, b);
    RunFinish(b);
    if onPostEmerge.Some? {
      b.Invoke(onPostEmerge.value);
    }
  }

  /** `LiquidSettingsRunner.run`. */
  method Run(runner: LiquidSettingsRunner, b: Bench, onPreSubmerge: Option<Hook>, onPostEmerge: Option<Hook>)
    requires runner.Valid()
    modifies b`calls, b`currentVolume, b`dispenseFlowRate
    ensures b.calls == old(b.calls) +
      RunCalls(runner.cfg, onPreSubmerge, onPostEmerge, old(b.currentVolume), old(b.dispenseFlowRate))
    ensures b.dispenseFlowRate == old(b.dispenseFlowRate)
    ensures b.currentVolume == RunVolume(runner.cfg, old(b.currentVolume))
  {
    ghost var calls0, volume0, rate0 := b.calls, b.currentVolume, b.dispenseFlowRate;
    ghost var p := PrefixCalls(runner.cfg, onPreSubmerge);
    ghost var l := LiquidCalls(runner.cfg, volume0, rate0);
    ghost var q := SuffixCalls(runner.cfg, onPostEmerge);
    RunPrefix(runner, b, onPreSubmerge);
    assert !Truthy(runner.cfg.aspirate) ==> b.currentVolume == volume0;
    RunLiquid(runner, b);
    assert b.calls == calls0 + p + l;
    RunSuffix(runner, b, onPostEmerge);
    assert b.calls == calls0 + p + l + q;
    ConcatAssoc(calls0, p, l);
    ConcatAssoc(calls0, p + l, q);
  }

  /** The liquid step of `run`: aspirate when aspirating, else dispense. */
  method RunLiquid(runner: LiquidSettingsRunner, b: Bench)
    modifies b`calls, b`currentVolume, b`dispenseFlowRate
    ensures b.calls == old(b.calls) + LiquidCalls(runner.cfg, old(b.currentVolume), old(b.dispenseFlowRate))
    ensures b.dispenseFlowRate == old(b.dispenseFlowRate)
    ensures b.currentVolume ==
      if Truthy(runner.cfg.aspirate) then old(b.currentVolume) + runner.cfg.aspirate.value
      else if Truthy(runner.cfg.dispense) then 0.0
      else old(b.currentVolume)
  {
    if Truthy(runner.cfg.aspirate) {
      RunAspirate(runner, b);
    } else {
      RunDispense(runner, b);
    }
  }

  /** The number of delay calls in a log. */
  function DelayCount(calls: seq<Call>): nat
  {
    if calls == [] then 0
    else (if calls[0].Delay? then 1 else 0) + DelayCount(calls[1..])
  }

  lemma {:induction false} DelayCountAppend(a: seq<Call>, b: seq<Call>)
    ensures DelayCount(a + b) == DelayCount(a) + DelayCount(b)
  {
    if a == [] {
      assert a + b == b;
    } else {
      assert (a + b)[1..] == a[1..] + b;
      DelayCountAppend(a[1..], b);
    }
  }

  lemma {:induction false} NoDelayNoCount(calls: seq<Call>)
    requires forall i :: 0 <= i < |calls| ==> !calls[i].Delay?
    ensures DelayCount(calls) == 0
  {
    if calls != [] {
      NoDelayNoCount(calls[1..]);
    }
  }

  /** `run` calls the delay method exactly once, with the aspirate delay when
      aspirating with a nonzero delay, else the dispense delay when
      dispensing with a nonzero delay, else zero. */
  lemma DelayCalledOnce(cfg: RunnerConfig, pre: Option<Hook>, post: Option<Hook>, volume: real, rate: real)
    ensures DelayCount(RunCalls(cfg, pre, post, volume, rate)) == 1
    ensures Delay(DelayTime(cfg)) in RunCalls(cfg, pre, post, volume, rate)
    ensures (Truthy(cfg.aspirate) && cfg.settings.aspirate.delay != 0.0) ==> DelayTime(cfg) == cfg.settings.aspirate.delay
    ensures (!(Truthy(cfg.aspirate) && cfg.settings.aspirate.delay != 0.0)
      && Truthy(cfg.dispense) && cfg.settings.dispense.delay != 0.0) ==> DelayTime(cfg) == cfg.settings.dispense.delay
    ensures (!(Truthy(cfg.aspirate) && cfg.settings.aspirate.delay != 0.0)
      && !(Truthy(cfg.dispense) && cfg.settings.dispense.delay != 0.0)) ==> DelayTime(cfg) == 0.0
  {
    var head := PrefixCalls(cfg, pre) + LiquidCalls(cfg, volume, rate);
    var tail := RetractCalls(cfg) + BlowOutCalls(cfg) + [Call.MoveTo(WellTop, true, None)] + HookCalls(post);
    var d := [Delay(DelayTime(cfg))];
    assert SuffixCalls(cfg, post) == d + tail;
    assert RunCalls(cfg, pre, post, volume, rate) == head + (d + tail);
    DelayCountAppend(head, d + tail);
    DelayCountAppend(d, tail);
    NoDelayNoCount(head);
    NoDelayNoCount(tail);
    assert DelayCount(d) == 1 by {
      assert d[1..] == [];
    }
    assert RunCalls(cfg, pre, post, volume, rate)[|head|] == Delay(DelayTime(cfg));
  }

  /** The wet air gap is aspirated only when aspirating with a nonzero
      wet-air-gap volume, and it is the first pipette call after the
      approach (and the pre-submerge callback). */
  lemma WetAirGapOnlyWhenAspirating(cfg: RunnerConfig, pre: Option<Hook>, post: Option<Hook>, volume: real, rate: real)
    ensures var calls := RunCalls(cfg, pre, post, volume, rate);
      var k := 1 + |HookCalls(pre)|;
      k < |calls| &&
      (calls[k] == AspirateCall(cfg.settings.wetAirGap.volume) <==>
        Truthy(cfg.aspirate) && cfg.settings.wetAirGap.volume != 0.0)
  {
    var calls := RunCalls(cfg, pre, post, volume, rate);
    var p := PrefixCalls(cfg, pre);
    var k := 1 + |HookCalls(pre)|;
    var front := [Call.MoveTo(WellTop, false, None)] + HookCalls(pre);
    var rest := AirGapCalls(cfg) + SubmergeCalls(cfg);
    assert p == front + rest;
    assert calls[k] == p[k] == rest[0];
  }

  /** The tip is blown out exactly when dispensing with a nonzero blow-out
      volume. */
  lemma BlowOutOnlyWhenDispensing(cfg: RunnerConfig, pre: Option<Hook>, post: Option<Hook>, volume: real, rate: real)
    ensures BlowOutCall in RunCalls(cfg, pre, post, volume, rate) <==>
      Truthy(cfg.dispense) && cfg.settings.blowOut.volume != 0.0
  {
    var tail := [Delay(DelayTime(cfg))] + RetractCalls(cfg);
    assert SuffixCalls(cfg, post) == tail + BlowOutCalls(cfg) + ([Call.MoveTo(WellTop, true, None)] + HookCalls(post));
  }

  /** Submerging moves first to the higher of the start "above" height and
      the end "below" height, then straight down to the end "below" height at
      the submerge speed; both come right after the air gap. */
  lemma SubmergeSequence(cfg: RunnerConfig, pre: Option<Hook>, post: Option<Hook>, volume: real, rate: real)
    ensures var calls := RunCalls(cfg, pre, post, volume, rate);
      var k := 1 + |HookCalls(pre)| + |AirGapCalls(cfg)|;
      k + 1 < |calls|
      && calls[k] == Call.MoveTo(WellBottom(MaxReal(cfg.heights.start.above, cfg.heights.end.below)), false, None)
      && calls[k + 1] == Call.MoveTo(WellBottom(cfg.heights.end.below), true, Some(cfg.settings.submerge.speed))
      && calls[k].location.z >= cfg.heights.end.below
  {
    var calls := RunCalls(cfg, pre, post, volume, rate);
    var front := [Call.MoveTo(WellTop, false, None)] + HookCalls(pre) + AirGapCalls(cfg);
    var rest := LiquidCalls(cfg, volume, rate) + SuffixCalls(cfg, post);
    assert calls == front + SubmergeCalls(cfg) + rest;
    var k := |front|;
    assert calls[k] == SubmergeCalls(cfg)[0];
    assert calls[k + 1] == SubmergeCalls(cfg)[1];
  }

  /** When volume is left in the tip after dispensing, the remainder is
      dispensed at the wet-air-gap flow rate and the previous rate is put
      back immediately after; otherwise the rate is never touched. */
  lemma LeftoverDispensedAtAirGapRate(cfg: RunnerConfig, volume: real, rate: real)
    requires !Truthy(cfg.aspirate) && Truthy(cfg.dispense)
    ensures volume > cfg.dispense.value ==>
      LiquidCalls(cfg, volume, rate) ==
        [DispenseCall(cfg.dispense), SetDispenseFlowRate(cfg.settings.wetAirGap.flowRate),
         DispenseCall(None), SetDispenseFlowRate(rate)]
    ensures volume <= cfg.dispense.value ==> LiquidCalls(cfg, volume, rate) == [DispenseCall(cfg.dispense)]
  {
  }

  /** The approach is the first call and the finish move the last one
      before the post-emerge callback; the pre-submerge callback comes right
      after the approach. */
  lemma RunIsBracketed(cfg: RunnerConfig, pre: Option<Hook>, post: Option<Hook>, volume: real, rate: real)
    ensures var calls := RunCalls(cfg, pre, post, volume, rate);
      var n := |calls| - |HookCalls(post)|;
      |calls| >= 2 && 1 <= n
      && calls[0] == Call.MoveTo(WellTop, false, None)
      && (pre.Some? ==> calls[1] == Callback(pre.value))
      && calls[n - 1] == Call.MoveTo(WellTop, true, None)
      && (post.Some? ==> calls[|calls| - 1] == Callback(post.value))
  {
    var calls := RunCalls(cfg, pre, post, volume, rate);
    var front := PrefixCalls(cfg, pre) + LiquidCalls(cfg, volume, rate)
      + ([Delay(DelayTime(cfg))] + RetractCalls(cfg) + BlowOutCalls(cfg));
    assert calls == front + [Call.MoveTo(WellTop, true, None)] + HookCalls(post);
    assert calls[0] == PrefixCalls(cfg, pre)[0];
    assert pre.Some? ==> calls[1] == PrefixCalls(cfg, pre)[1];
  }


  /** `PipetteLiquidClass`: a pipette with a current liquid class and four
      optional callbacks. */
  class PipetteLiquidClass {
    const pipette: Bench
    var liqCls: LiquidClassSettings
    var onPreAspirate: bool
    var onPostAspirate: bool
    var onPreDispense: bool
    var onPostDispense: bool

    constructor (pipette: Bench, defaultClass: LiquidClassSettings)
      ensures this.pipette == pipette && liqCls == defaultClass
      ensures !onPreAspirate && !onPostAspirate && !onPreDispense && !onPostDispense
    {
      this.pipette := pipette;
      liqCls := defaultClass;
      onPreAspirate, onPostAspirate, onPreDispense, onPostDispense := false, false, false, false;
    }

    /** `set_liquid_class`: stores the class, then (asserting a nonzero
        traverse speed) applies its speeds to the pipette. */
    method SetLiquidClass(settings: LiquidClassSettings) returns (r: Outcome<LiquidClassError>)
      modifies this`liqCls, pipette`defaultSpeed, pipette`aspirateFlowRate,
        pipette`dispenseFlowRate, pipette`blowOutFlowRate
      ensures liqCls == settings
      ensures r.Pass? <==> settings.traverseSpeed != 0.0
      ensures r.Fail? ==> (r.error == AssertionError(NoTraverseSpeed)
        && unchanged(pipette`defaultSpeed, pipette`aspirateFlowRate, pipette`dispenseFlowRate, pipette`blowOutFlowRate))
      ensures r.Pass? ==>
        pipette.defaultSpeed == settings.traverseSpeed
        && pipette.aspirateFlowRate == settings.aspirate.flowRate
        && pipette.dispenseFlowRate == settings.dispense.flowRate
        && pipette.blowOutFlowRate == settings.blowOut.flowRate
    {
      liqCls := settings;
      if liqCls.traverseSpeed == 0.0 {
        return Fail(AssertionError(NoTraverseSpeed));
      }
      pipette.defaultSpeed := liqCls.traverseSpeed;
      pipette.aspirateFlowRate := liqCls.aspirate.flowRate;
      pipette.dispenseFlowRate := liqCls.dispense.flowRate;
      pipette.blowOutFlowRate := liqCls.blowOut.flowRate;
      r := Pass;
    }

    method AssignCallbacks(preAspirate: bool, postAspirate: bool, preDispense: bool, postDispense: bool)
      modifies this`onPreAspirate, this`onPostAspirate, this`onPreDispense, this`onPostDispense
      ensures onPreAspirate == preAspirate && onPostAspirate == postAspirate
      ensures onPreDispense == preDispense && onPostDispense == postDispense
    {
      onPreAspirate, onPostAspirate, onPreDispense, onPostDispense := preAspirate, postAspirate, preDispense, postDispense;
    }

    function HookIf(present: bool, hook: Hook): Option<Hook>
    {
      if present then Some(hook) else None
    }

    /** The callbacks `_pipette_liquid_settings` hands to `run`: the aspirate
        pair when aspirating (truthy), the dispense pair otherwise. */
    function HooksFor(aspirate: Option<real>): (Option<Hook>, Option<Hook>)
      reads this
    {
      if Truthy(aspirate) then (HookIf(onPreAspirate, PreAspirate), HookIf(onPostAspirate, PostAspirate))
      else (HookIf(onPreDispense, PreDispense), HookIf(onPostDispense, PostDispense))
    }

    /** `_pipette_liquid_settings`, given the liquid heights before and after
        that the liquid tracker reports. */
    method PipetteLiquidSettings(heightBefore: real, heightAfter: real, aspirate: Option<real>, dispense: Option<real>)
      returns (r: Outcome<LiquidClassError>)
      modifies pipette`calls, pipette`currentVolume, pipette`dispenseFlowRate
      ensures var h := CreatePipettingHeights(heightBefore, heightAfter, liqCls);
        r.Pass? <==> h.Success? && (aspirate.Some? != dispense.Some?)
      ensures CreatePipettingHeights(heightBefore, heightAfter, liqCls).Failure? ==>
        r == Fail(CreatePipettingHeights(heightBefore, heightAfter, liqCls).error)
      ensures r.Fail? ==> unchanged(pipette`calls, pipette`currentVolume, pipette`dispenseFlowRate)
      ensures r.Pass? ==>
        var cfg := RunnerConfig(CreatePipettingHeights(heightBefore, heightAfter, liqCls).value, liqCls, aspirate, dispense);
        pipette.calls == old(pipette.calls)
          + RunCalls(cfg, HooksFor(aspirate).0, HooksFor(aspirate).1, old(pipette.currentVolume), old(pipette.dispenseFlowRate))
          + [UpdateAffectedWells(aspirate, dispense)]
        && pipette.currentVolume == RunVolume(cfg, old(pipette.currentVolume))
        && pipette.dispenseFlowRate == old(pipette.dispenseFlowRate)
    {
      var heights := CreatePipettingHeights(heightBefore, heightAfter, liqCls);
      if heights.Failure? {
        return Fail(heights.error);
      }
      var cfg := RunnerConfig(heights.value, liqCls, aspirate, dispense);
      var runner := NewLiquidSettingsRunner(cfg);
      if runner.Failure? {
        return Fail(runner.error);
      }
      var hooks := HooksFor(aspirate);
      Run(runner.value, pipette, hooks.0, hooks.1);
      pipette.UpdateTracker(aspirate, dispense);
      r := Pass;
    }

    /** `aspirate(volume, well, liquid_level)`. */
    method Aspirate(volume: real, heightBefore: real, heightAfter: real) returns (r: Outcome<LiquidClassError>)
      modifies pipette`calls, pipette`currentVolume, pipette`dispenseFlowRate
      ensures r.Pass? <==> CreatePipettingHeights(heightBefore, heightAfter, liqCls).Success?
      ensures r.Fail? ==>
        r == Fail(CreatePipettingHeights(heightBefore, heightAfter, liqCls).error)
        && unchanged(pipette`calls, pipette`currentVolume, pipette`dispenseFlowRate)
      ensures r.Pass? ==>
        var cfg := RunnerConfig(CreatePipettingHeights(heightBefore, heightAfter, liqCls).value, liqCls, Some(volume), None);
        pipette.calls == old(pipette.calls)
          + RunCalls(cfg, HooksFor(Some(volume)).0, HooksFor(Some(volume)).1, old(pipette.currentVolume), old(pipette.dispenseFlowRate))
          + [UpdateAffectedWells(Some(volume), None)]
        && pipette.currentVolume == RunVolume(cfg, old(pipette.currentVolume))
        && pipette.dispenseFlowRate == old(pipette.dispenseFlowRate)
    {
      r := PipetteLiquidSettings(heightBefore, heightAfter, Some(volume), None);
    }

    /** `dispense(volume, well, liquid_level)`. */
    method Dispense(volume: real, heightBefore: real, heightAfter: real) returns (r: Outcome<LiquidClassError>)
      modifies pipette`calls, pipette`currentVolume, pipette`dispenseFlowRate
      ensures r.Pass? <==> CreatePipettingHeights(heightBefore, heightAfter, liqCls).Success?
      ensures r.Fail? ==>
        r == Fail(CreatePipettingHeights(heightBefore, heightAfter, liqCls).error)
        && unchanged(pipette`calls, pipette`currentVolume, pipette`dispenseFlowRate)
      ensures r.Pass? ==>
        var cfg := RunnerConfig(CreatePipettingHeights(heightBefore, heightAfter, liqCls).value, liqCls, None, Some(volume));
        pipette.calls == old(pipette.calls)
          + RunCalls(cfg, HooksFor(None).0, HooksFor(None).1, old(pipette.currentVolume), old(pipette.dispenseFlowRate))
          + [UpdateAffectedWells(None, Some(volume))]
        && pipette.currentVolume == RunVolume(cfg, old(pipette.currentVolume))
        && pipette.dispenseFlowRate == old(pipette.dispenseFlowRate)
    {
      r := PipetteLiquidSettings(heightBefore, heightAfter, None, Some(volume));
    }
  }
}

/** The gravimetric test runner: the liquid tracker seeded from the deck, the
    trial schedule, and `run`, which records the scale while it picks up a
    tip, aspirates, dispenses and drops the tip for every trial, and stops
    the recorder however the trials end. The protocol context, the pipette,
    the liquid-class pipette, the tracker and the recorder are foreign
    objects: each call made to them is recorded in order. */
module GravimetricExecute {
  import opened Common

  /** `SCALE_SECONDS_TO_SETTLE`; the delays after aspirating and after
      dispensing, and the final pause, are all this long. */
  const SettleSeconds: real := 1.0

  /** A well, named by its labware and its own name. */
  datatype Well = Well(labware: string, name: string)

  /** A loaded labware: its display name, whether it is a tip rack, and its
      wells in order. */
  datatype Labware = Labware(name: string, isTiprack: bool, wells: seq<Well>)

  // ---------------------------------------------------------------------
  // Seeding the liquid tracker
  // ---------------------------------------------------------------------

  datatype TrackerCall = Reset | InitWellLiquidHeight(well: Well)

  /** The `LiquidTracker`: every call made to it lands in `calls`. */
  class LiquidTracker {
    var calls: seq<TrackerCall>

    constructor ()
      ensures calls == []
    {
      calls := [];
    }

    method Reset()
      modifies this
      ensures calls == old(calls) + [TrackerCall.Reset]
    {
      calls := calls + [TrackerCall.Reset];
    }

    method InitWellLiquidHeight(w: Well)
      modifies this
      ensures calls == old(calls) + [TrackerCall.InitWellLiquidHeight(w)]
    {
      calls := calls + [TrackerCall.InitWellLiquidHeight(w)];
    }
  }

  /** Tip racks and any labware whose lower-cased name contains "trash" get
      no liquid. */
  predicate Skipped(lw: Labware)
  {
    lw.isTiprack || Contains(Lower(lw.name), "trash")
  }

  function WellCalls(wells: seq<Well>): seq<TrackerCall>
  {
    seq(|wells|, i requires 0 <= i < |wells| => InitWellLiquidHeight(wells[i]))
  }

  /** The wells initialised for the labware list, in deck order. */
  function InitCalls(labwares: seq<Labware>): seq<TrackerCall>
  {
    if |labwares| == 0 then []
    else
      var lw := labwares[|labwares| - 1];
      InitCalls(labwares[..|labwares| - 1]) + (if Skipped(lw) then [] else WellCalls(lw.wells))
  }

  /** `_initialize_liquid_from_deck`: the tracker is reset, then every well of
      every labware that is not skipped is initialised, labware by labware. */
  method InitializeLiquidFromDeck(labwares: seq<Labware>, lt: LiquidTracker)
    modifies lt
    ensures lt.calls == old(lt.calls) + [TrackerCall.Reset] + InitCalls(labwares)
  {
    lt.Reset();
    var i := 0;
    while i < |labwares|
      invariant 0 <= i <= |labwares|
      invariant lt.calls == old(lt.calls) + [TrackerCall.Reset] + InitCalls(labwares[..i])
    {
      var lw := labwares[i];
      assert labwares[..i + 1][..i] == labwares[..i];
      if !Skipped(lw) {
        ghost var before := lt.calls;
        var j := 0;
        while j < |lw.wells|
          invariant 0 <= j <= |lw.wells|
          invariant lt.calls == before + WellCalls(lw.wells[..j])
        {
          assert WellCalls(lw.wells[..j + 1]) == WellCalls(lw.wells[..j]) + [InitWellLiquidHeight(lw.wells[j])];
          lt.InitWellLiquidHeight(lw.wells[j]);
          j := j + 1;
        }
        assert lw.wells[..j] == lw.wells;
      }
      i := i + 1;
    }
    assert labwares[..i] == labwares;
  }

  /** The well belongs to a labware of the list that is not skipped. */
  predicate KeptWell(labwares: seq<Labware>, w: Well)
  {
    exists lw :: lw in labwares && !Skipped(lw) && w in lw.wells
  }

  lemma KeptWellSnoc(init: seq<Labware>, lw: Labware, w: Well)
    ensures KeptWell(init + [lw], w) <==> KeptWell(init, w) || (!Skipped(lw) && w in lw.wells)
  {
    if KeptWell(init + [lw], w) {
      var l :| l in init + [lw] && !Skipped(l) && w in l.wells;
      if l != lw {
        assert l in init;
      }
    }
    if KeptWell(init, w) {
      var l :| l in init && !Skipped(l) && w in l.wells;
      assert l in init + [lw];
    }
  }

  lemma WellCallsInit(wells: seq<Well>, w: Well)
    ensures InitWellLiquidHeight(w) in WellCalls(wells) <==> w in wells
  {
    if w in wells {
      var i :| 0 <= i < |wells| && wells[i] == w;
      assert WellCalls(wells)[i] == InitWellLiquidHeight(w);
    }
  }

  /** After the reset every call initialises a well. */
  lemma {:induction false} InitCallsAreWellInits(labwares: seq<Labware>)
    ensures forall k :: 0 <= k < |InitCalls(labwares)| ==> InitCalls(labwares)[k].InitWellLiquidHeight?
  {
    if |labwares| > 0 {
      InitCallsAreWellInits(labwares[..|labwares| - 1]);
    }
  }

  /** A well is initialised exactly when it belongs to a labware that is
      neither a tip rack nor trash. */
  lemma {:induction false} InitCallsAreKeptWells(labwares: seq<Labware>, w: Well)
    ensures InitWellLiquidHeight(w) in InitCalls(labwares) <==> KeptWell(labwares, w)
  {
    if |labwares| > 0 {
      var init := labwares[..|labwares| - 1];
      var lw := labwares[|labwares| - 1];
      InitCallsAreKeptWells(init, w);
      assert labwares == init + [lw];
      KeptWellSnoc(init, lw, w);
      WellCallsInit(lw.wells, w);
    }
  }

  // ---------------------------------------------------------------------
  // The trial schedule
  // ---------------------------------------------------------------------

  /** How many times `range(trials)` iterates. */
  function TrialCount(trials: int): nat
  {
    if trials > 0 then trials else 0
  }

  /** `[(v, t + 1) for v in volumes for t in range(trials)]`: each volume in
      turn, with trial numbers counting from 1. */
  function Schedule(volumes: seq<real>, trials: int): seq<(real, int)>
  {
    if |volumes| == 0 then []
    else seq(TrialCount(trials), t requires 0 <= t => (volumes[0], t + 1)) + Schedule(volumes[1..], trials)
  }

  /** The schedule holds one entry per volume and trial. */
  lemma {:induction false} ScheduleLength(volumes: seq<real>, trials: int)
    ensures |Schedule(volumes, trials)| == |volumes| * TrialCount(trials)
  {
    if |volumes| > 0 {
      ScheduleLength(volumes[1..], trials);
      assert |volumes| * TrialCount(trials) == (|volumes| - 1) * TrialCount(trials) + TrialCount(trials);
    }
  }

  /** Entry k of the schedule is volume k / trials at trial k % trials + 1:
      the schedule is volume-major, and within a volume the trials run from
      1 up to `trials`. */
  lemma ScheduleIsVolumeMajor(volumes: seq<real>, trials: int)
    ensures trials > 0 ==> forall k :: 0 <= k < |Schedule(volumes, trials)| ==>
      k / trials < |volumes| && Schedule(volumes, trials)[k] == (volumes[k / trials], k % trials + 1)
  {
    if trials > 0 {
      forall k | 0 <= k < |Schedule(volumes, trials)|
        ensures k / trials < |volumes| && Schedule(volumes, trials)[k] == (volumes[k / trials], k % trials + 1)
      {
        ScheduleEntry(volumes, trials, k);
      }
    }
  }

  lemma {:induction false} ScheduleEntry(volumes: seq<real>, trials: int, k: int)
    requires trials > 0 && 0 <= k < |Schedule(volumes, trials)|
    ensures k / trials < |volumes| && Schedule(volumes, trials)[k] == (volumes[k / trials], k % trials + 1)
  {
    var head := seq(TrialCount(trials), t requires 0 <= t => (volumes[0], t + 1));
    assert Schedule(volumes, trials) == head + Schedule(volumes[1..], trials);
    if k < trials {
      DivSmall(k, trials);
      assert Schedule(volumes, trials)[k] == head[k];
    } else {
      ScheduleEntry(volumes[1..], trials, k - trials);
      DivShift(k, trials);
      assert Schedule(volumes, trials)[k] == Schedule(volumes[1..], trials)[k - trials];
      assert volumes[1..][k / trials - 1] == volumes[k / trials];
    }
  }

  lemma DivSmall(k: int, n: int)
    requires 0 <= k < n
    ensures k / n == 0 && k % n == k
  {
  }

  lemma DivShift(k: int, n: int)
    requires 0 < n <= k
    ensures (k - n) / n == k / n - 1 && (k - n) % n == k % n
  {
    var q, r := k / n, k % n;
    var q2, r2 := (k - n) / n, (k - n) % n;
    assert (q - 1 - q2) * n == r2 - r;
    if q - 1 - q2 > 0 {
      MulAtLeast(q - 1 - q2, n);
    } else if q - 1 - q2 < 0 {
      MulAtLeast(q2 + 1 - q, n);
    }
  }

  lemma MulAtLeast(a: int, n: int)
    requires a >= 1 && n > 0
    ensures a * n >= n
  {
  }

  // ---------------------------------------------------------------------
  // The run
  // ---------------------------------------------------------------------

  /** `SampleTag(name, volume, trial)`, the label the recorder puts on the
      scale readings taken inside `set_sample_tag`. */
  datatype SampleTag = SampleTag(name: string, volume: real, trial: int)

  /** One call made by `run` to a foreign object. */
  datatype Event =
    | RecordStarted                                // recorder.record(in_thread=True)
    | DropTip
    | PickUpTip
    | LiquidAspirate(volume: real, well: Well)     // liquid_pipette.aspirate
    | LiquidDispense(volume: real, well: Well)     // liquid_pipette.dispense
    | TaggedDelay(tag: SampleTag, seconds: real)   // ctx.delay inside set_sample_tag(tag)
    | Delay(seconds: real)
    | RecordStopped                                // recorder.stop()

  datatype ExecuteError = CallRaised(index: nat)

  /** The protocol context, pipette, liquid-class pipette and recorder. The
      call at position `raisesAt` of the trace, if there is one, raises; it
      is still recorded. `hasTip` is the pipette's `has_tip`, which a picked
      up tip sets and a dropped tip clears. */
  class Lab {
    var events: seq<Event>
    var hasTip: bool
    const raisesAt: Option<nat>

    constructor (hasTip: bool, raisesAt: Option<nat>)
      ensures events == [] && this.hasTip == hasTip && this.raisesAt == raisesAt
    {
      events := [];
      this.hasTip := hasTip;
      this.raisesAt := raisesAt;
    }

    method Call(e: Event) returns (ok: bool)
      modifies this
      ensures events == old(events) + [e]
      ensures ok <==> raisesAt != Some(|old(events)|)
      ensures hasTip == (if ok && e == PickUpTip then true else if ok && e == DropTip then false else old(hasTip))
    {
      ok := raisesAt != Some(|events|);
      events := events + [e];
      if ok && e == PickUpTip {
        hasTip := true;
      } else if ok && e == DropTip {
        hasTip := false;
      }
    }

    /** `recorder.stop()`. */
    method Stop()
      modifies this`events
      ensures events == old(events) + [RecordStopped]
    {
      events := events + [RecordStopped];
    }
  }

  /** One trial: a held tip is dropped first, then a fresh tip aspirates the
      volume from the well, the scale settles under the aspirate tag, the
      same volume is dispensed into the same well, the scale settles under
      the dispense tag, and the tip is dropped. */
  function TrialEvents(volume: real, trial: int, well: Well, holdingTip: bool): seq<Event>
  {
    (if holdingTip then [DropTip] else []) + TrialBody(volume, trial, well)
  }

  /** The trials of a schedule in order; only the first can find a tip held. */
  function TrialsEvents(schedule: seq<(real, int)>, well: Well, holdingTip: bool): seq<Event>
  {
    if |schedule| == 0 then []
    else
      var last := schedule[|schedule| - 1];
      TrialsEvents(schedule[..|schedule| - 1], well, holdingTip)
        + TrialEvents(last.0, last.1, well, |schedule| == 1 && holdingTip)
  }

  /** The body of `run`'s `try`, when nothing raises. */
  function RunEvents(schedule: seq<(real, int)>, well: Well, holdingTip: bool): seq<Event>
  {
    [RecordStarted] + TrialsEvents(schedule, well, holdingTip) + [Delay(SettleSeconds)]
  }

  /** Whether the raising call falls among `plan`'s calls when they start at
      trace position `start`. */
  predicate Raises(plan: seq<Event>, start: nat, raisesAt: Option<nat>)
  {
    raisesAt.Some? && start <= raisesAt.value < start + |plan|
  }

  /** The calls of `plan` actually made: all of them, or up to and including
      the one that raises. */
  function Attempted(plan: seq<Event>, start: nat, raisesAt: Option<nat>): (r: seq<Event>)
    ensures r <= plan
  {
    if Raises(plan, start, raisesAt) then plan[..raisesAt.value - start + 1] else plan
  }

  lemma AttemptedPrefix(q: seq<Event>, p: seq<Event>, start: nat, raisesAt: Option<nat>)
    requires q <= p && Raises(q, start, raisesAt)
    ensures Raises(p, start, raisesAt) && Attempted(p, start, raisesAt) == Attempted(q, start, raisesAt)
  {
  }

  /** One call of a planned sequence: the calls before it were made and none
      raised; this one is made and recorded, and if it raises the trace is the
      plan as far as it got. */
  method Step(lab: Lab, e: Event, ghost plan: seq<Event>, ghost e0: seq<Event>, ghost j: nat) returns (ok: bool)
    requires j < |plan| && plan[j] == e
    requires lab.events == e0 + plan[..j] && !Raises(plan[..j], |e0|, lab.raisesAt)
    modifies lab
    ensures lab.events == e0 + plan[..j + 1]
    ensures ok <==> !Raises(plan[..j + 1], |e0|, lab.raisesAt)
    ensures !ok ==> Raises(plan, |e0|, lab.raisesAt) && plan[..j + 1] == Attempted(plan, |e0|, lab.raisesAt)
    ensures lab.hasTip == (if ok && e == PickUpTip then true else if ok && e == DropTip then false else old(lab.hasTip))
  {
    ok := lab.Call(e);
    assert plan[..j + 1] == plan[..j] + [e];
  }

  /** The calls of a trial after the optional drop. */
  function TrialBody(volume: real, trial: int, well: Well): seq<Event>
  {
    [ PickUpTip,
      LiquidAspirate(volume, well),
      TaggedDelay(SampleTag("aspirate", volume, trial), SettleSeconds),
      LiquidDispense(volume, well),
      TaggedDelay(SampleTag("dispense", volume, trial), SettleSeconds),
      DropTip ]
  }

  method RunTrialBody(lab: Lab, well: Well, volume: real, trial: int) returns (ok: bool)
    modifies lab
    ensures lab.events == old(lab.events) + Attempted(TrialBody(volume, trial, well), |old(lab.events)|, lab.raisesAt)
    ensures ok <==> !Raises(TrialBody(volume, trial, well), |old(lab.events)|, lab.raisesAt)
    ensures ok ==> !lab.hasTip
  {
    ghost var plan := TrialBody(volume, trial, well);
    ghost var e0 := lab.events;
    assert plan[..0] == [];
    ok := Step(lab, PickUpTip, plan, e0, 0);
    if !ok { return; }
    ok := Step(lab, LiquidAspirate(volume, well), plan, e0, 1);
    if !ok { return; }
    ok := Step(lab, TaggedDelay(SampleTag("aspirate", volume, trial), SettleSeconds), plan, e0, 2);
    if !ok { return; }
    ok := Step(lab, LiquidDispense(volume, well), plan, e0, 3);
    if !ok { return; }
    ok := Step(lab, TaggedDelay(SampleTag("dispense", volume, trial), SettleSeconds), plan, e0, 4);
    if !ok { return; }
    ok := Step(lab, DropTip, plan, e0, 5);
    assert plan[..6] == plan;
  }

  /** One trial, checking `has_tip` before picking up. */
  method RunTrial(lab: Lab, well: Well, volume: real, trial: int) returns (ok: bool)
    modifies lab
    ensures lab.events == old(lab.events) + Attempted(TrialEvents(volume, trial, well, old(lab.hasTip)), |old(lab.events)|, lab.raisesAt)
    ensures ok <==> !Raises(TrialEvents(volume, trial, well, old(lab.hasTip)), |old(lab.events)|, lab.raisesAt)
    ensures ok ==> !lab.hasTip
  {
    ghost var start := |lab.events|;
    ghost var pre: seq<Event> := if lab.hasTip then [DropTip] else [];
    if lab.hasTip {
      ok := lab.Call(DropTip);
      if !ok {
        AttemptedPrefix(pre, TrialEvents(volume, trial, well, true), start, lab.raisesAt);
        return;
      }
    }
    ok := RunTrialBody(lab, well, volume, trial);
    AttemptedAfter(pre, TrialBody(volume, trial, well), start, lab.raisesAt);
  }

  /** When `a` completes without raising, attempting `a + b` is `a` followed
      by the attempt at `b`. */
  lemma AttemptedAfter(a: seq<Event>, b: seq<Event>, start: nat, raisesAt: Option<nat>)
    requires !Raises(a, start, raisesAt)
    ensures Raises(a + b, start, raisesAt) <==> Raises(b, start + |a|, raisesAt)
    ensures Attempted(a + b, start, raisesAt) == a + Attempted(b, start + |a|, raisesAt)
  {
    if Raises(b, start + |a|, raisesAt) {
      assert (a + b)[..raisesAt.value - start + 1] == a + b[..raisesAt.value - (start + |a|) + 1];
    }
  }

  /** A raise in trial i leaves the trials before it complete and trial i as
      far as it got, and nothing after. */
  lemma RaisedInTrial(schedule: seq<(real, int)>, i: nat, well: Well, holdingTip: bool, start: nat, raisesAt: Option<nat>)
    requires i < |schedule|
    requires !Raises(TrialsEvents(schedule[..i], well, holdingTip), start, raisesAt)
    requires Raises(TrialEvents(schedule[i].0, schedule[i].1, well, holdingTip && i == 0),
      start + |TrialsEvents(schedule[..i], well, holdingTip)|, raisesAt)
    ensures Raises(TrialsEvents(schedule, well, holdingTip), start, raisesAt)
    ensures Attempted(TrialsEvents(schedule, well, holdingTip), start, raisesAt)
      == TrialsEvents(schedule[..i], well, holdingTip)
        + Attempted(TrialEvents(schedule[i].0, schedule[i].1, well, holdingTip && i == 0),
            start + |TrialsEvents(schedule[..i], well, holdingTip)|, raisesAt)
  {
    var done := TrialsEvents(schedule[..i], well, holdingTip);
    var t := TrialEvents(schedule[i].0, schedule[i].1, well, holdingTip && i == 0);
    assert schedule[..i + 1][..i] == schedule[..i];
    assert done + t == TrialsEvents(schedule[..i + 1], well, holdingTip);
    TrialsEventsPrefix(schedule, i + 1, well, holdingTip);
    AttemptedAfter(done, t, start, raisesAt);
    AttemptedPrefix(done + t, TrialsEvents(schedule, well, holdingTip), start, raisesAt);
  }

  /** A trial that completes extends the completed prefix by one trial. */
  lemma TrialCompleted(schedule: seq<(real, int)>, i: nat, well: Well, holdingTip: bool, start: nat, raisesAt: Option<nat>)
    requires i < |schedule|
    requires !Raises(TrialsEvents(schedule[..i], well, holdingTip), start, raisesAt)
    requires !Raises(TrialEvents(schedule[i].0, schedule[i].1, well, holdingTip && i == 0),
      start + |TrialsEvents(schedule[..i], well, holdingTip)|, raisesAt)
    ensures TrialsEvents(schedule[..i + 1], well, holdingTip)
      == TrialsEvents(schedule[..i], well, holdingTip) + TrialEvents(schedule[i].0, schedule[i].1, well, holdingTip && i == 0)
    ensures !Raises(TrialsEvents(schedule[..i + 1], well, holdingTip), start, raisesAt)
  {
    assert schedule[..i + 1][..i] == schedule[..i];
  }

  /** Trial i of the loop, the earlier trials having run through. */
  method NextTrial(lab: Lab, well: Well, schedule: seq<(real, int)>, i: nat, ghost e0: seq<Event>, ghost h0: bool)
    returns (ok: bool)
    requires i < |schedule|
    requires lab.events == e0 + TrialsEvents(schedule[..i], well, h0)
    requires !Raises(TrialsEvents(schedule[..i], well, h0), |e0|, lab.raisesAt)
    requires lab.hasTip == (h0 && i == 0)
    modifies lab
    ensures ok ==> lab.events == e0 + TrialsEvents(schedule[..i + 1], well, h0)
    ensures ok ==> !Raises(TrialsEvents(schedule[..i + 1], well, h0), |e0|, lab.raisesAt) && !lab.hasTip
    ensures !ok ==> Raises(TrialsEvents(schedule, well, h0), |e0|, lab.raisesAt)
    ensures !ok ==> lab.events == e0 + Attempted(TrialsEvents(schedule, well, h0), |e0|, lab.raisesAt)
  {
    ghost var done := TrialsEvents(schedule[..i], well, h0);
    ghost var t := TrialEvents(schedule[i].0, schedule[i].1, well, h0 && i == 0);
    ok := RunTrial(lab, well, schedule[i].0, schedule[i].1);
    assert lab.events == e0 + (done + Attempted(t, |e0| + |done|, lab.raisesAt));
    if !ok {
      RaisedInTrial(schedule, i, well, h0, |e0|, lab.raisesAt);
    } else {
      TrialCompleted(schedule, i, well, h0, |e0|, lab.raisesAt);
    }
  }

  /** The trial loop: every scheduled trial in order, until a call raises. */
  method RunAllTrials(lab: Lab, well: Well, schedule: seq<(real, int)>) returns (ok: bool)
    modifies lab
    ensures lab.events == old(lab.events) + Attempted(TrialsEvents(schedule, well, old(lab.hasTip)), |old(lab.events)|, lab.raisesAt)
    ensures ok <==> !Raises(TrialsEvents(schedule, well, old(lab.hasTip)), |old(lab.events)|, lab.raisesAt)
  {
    ghost var e0 := lab.events;
    ghost var h0 := lab.hasTip;
    assert schedule[..0] == [];
    ok := true;
    var i := 0;
    while i < |schedule|
      invariant 0 <= i <= |schedule|
      invariant lab.events == e0 + TrialsEvents(schedule[..i], well, h0)
      invariant !Raises(TrialsEvents(schedule[..i], well, h0), |e0|, lab.raisesAt)
      invariant lab.hasTip == (h0 && i == 0)
    {
      ok := NextTrial(lab, well, schedule, i, e0, h0);
      if !ok {
        return;
      }
      i := i + 1;
    }
    assert schedule[..i] == schedule;
  }

  /** The trial loop and the final pause. */
  method TrialsThenPause(lab: Lab, well: Well, schedule: seq<(real, int)>) returns (ok: bool)
    modifies lab
    ensures lab.events == old(lab.events)
      + Attempted(TrialsEvents(schedule, well, old(lab.hasTip)) + [Delay(SettleSeconds)], |old(lab.events)|, lab.raisesAt)
    ensures ok <==> !Raises(TrialsEvents(schedule, well, old(lab.hasTip)) + [Delay(SettleSeconds)], |old(lab.events)|, lab.raisesAt)
  {
    ghost var e0 := lab.events;
    ghost var tp := TrialsEvents(schedule, well, lab.hasTip);
    ok := RunAllTrials(lab, well, schedule);
    if !ok {
      AttemptedPrefix(tp, tp + [Delay(SettleSeconds)], |e0|, lab.raisesAt);
      return;
    }
    AttemptedAfter(tp, [Delay(SettleSeconds)], |e0|, lab.raisesAt);
    ok := lab.Call(Delay(SettleSeconds));
  }

  /** The `try` body is `record` followed by the trials and the pause. */
  lemma StartThenRest(schedule: seq<(real, int)>, well: Well, holdingTip: bool, start: nat, raisesAt: Option<nat>)
    ensures var rest := TrialsEvents(schedule, well, holdingTip) + [Delay(SettleSeconds)];
      && (Raises(RunEvents(schedule, well, holdingTip), start, raisesAt) <==> raisesAt == Some(start) || Raises(rest, start + 1, raisesAt))
      && Attempted(RunEvents(schedule, well, holdingTip), start, raisesAt)
        == if raisesAt == Some(start) then [RecordStarted] else [RecordStarted] + Attempted(rest, start + 1, raisesAt)
  {
    var rest := TrialsEvents(schedule, well, holdingTip) + [Delay(SettleSeconds)];
    assert RunEvents(schedule, well, holdingTip) == [RecordStarted] + rest;
    if raisesAt == Some(start) {
      AttemptedPrefix([RecordStarted], [RecordStarted] + rest, start, raisesAt);
    } else {
      AttemptedAfter([RecordStarted], rest, start, raisesAt);
    }
  }

  /** The body of the `try`: start recording, run every scheduled trial, and
      pause once more for the last reading; the first call that raises ends
      it. */
  method RecordTrials(lab: Lab, well: Well, volumes: seq<real>, trials: int) returns (r: Outcome<ExecuteError>)
    modifies lab
    ensures lab.events == old(lab.events) + Attempted(RunEvents(Schedule(volumes, trials), well, old(lab.hasTip)), |old(lab.events)|, lab.raisesAt)
    ensures r.Fail? <==> Raises(RunEvents(Schedule(volumes, trials), well, old(lab.hasTip)), |old(lab.events)|, lab.raisesAt)
    ensures r.Fail? ==> r.error == CallRaised(lab.raisesAt.value)
  {
    ghost var e0 := lab.events;
    var allTrials := Schedule(volumes, trials);
    ghost var rest := TrialsEvents(allTrials, well, lab.hasTip) + [Delay(SettleSeconds)];
    StartThenRest(allTrials, well, lab.hasTip, |e0|, lab.raisesAt);
    var ok := lab.Call(RecordStarted);
    if !ok {
      return Fail(CallRaised(lab.raisesAt.value));
    }
    ghost var e1 := lab.events;
    ok := TrialsThenPause(lab, well, allTrials);
    ConcatAssoc(e0, [RecordStarted], Attempted(rest, |e1|, lab.raisesAt));
    r := if ok then Pass else Fail(CallRaised(lab.raisesAt.value));
  }

  lemma {:induction false} TrialsEventsPrefix(schedule: seq<(real, int)>, j: nat, well: Well, holdingTip: bool)
    requires j <= |schedule|
    ensures TrialsEvents(schedule[..j], well, holdingTip) <= TrialsEvents(schedule, well, holdingTip)
    decreases |schedule| - j
  {
    if j < |schedule| {
      TrialsEventsPrefix(schedule, j + 1, well, holdingTip);
      assert schedule[..j + 1][..j] == schedule[..j];
    } else {
      assert schedule[..j] == schedule;
    }
  }

  /** `run`: the recorder is stopped after the `try` body, whether that body
      finished or a call in it raised. */
  method Run(lab: Lab, well: Well, volumes: seq<real>, trials: int) returns (r: Outcome<ExecuteError>)
    modifies lab
    ensures lab.events == old(lab.events)
      + Attempted(RunEvents(Schedule(volumes, trials), well, old(lab.hasTip)), |old(lab.events)|, lab.raisesAt)
      + [RecordStopped]
    ensures r.Fail? <==> Raises(RunEvents(Schedule(volumes, trials), well, old(lab.hasTip)), |old(lab.events)|, lab.raisesAt)
  {
    r := RecordTrials(lab, well, volumes, trials);
    lab.Stop();
  }

  // ---------------------------------------------------------------------
  // What the run does with tips and liquid
  // ---------------------------------------------------------------------

  /** `has_tip` after a sequence of calls, starting from `holding`. */
  function Holding(events: seq<Event>, holding: bool): bool
  {
    if |events| == 0 then holding
    else
      var last := events[|events| - 1];
      if last == PickUpTip then true
      else if last == DropTip then false
      else Holding(events[..|events| - 1], holding)
  }

  /** Every pick-up happens with no tip on the pipette. */
  predicate PicksOnlyWhenEmpty(events: seq<Event>, holding: bool)
  {
    forall k :: 0 <= k < |events| && events[k] == PickUpTip ==> !Holding(events[..k], holding)
  }

  lemma {:induction false} HoldingAppend(a: seq<Event>, b: seq<Event>, holding: bool)
    ensures Holding(a + b, holding) == Holding(b, Holding(a, holding))
    decreases |b|
  {
    if |b| == 0 {
      assert a + b == a;
    } else {
      assert (a + b)[..|a + b| - 1] == a + b[..|b| - 1];
      HoldingAppend(a, b[..|b| - 1], holding);
    }
  }

  lemma PicksOnlyWhenEmptyAppend(a: seq<Event>, b: seq<Event>, holding: bool)
    requires PicksOnlyWhenEmpty(a, holding) && PicksOnlyWhenEmpty(b, Holding(a, holding))
    ensures PicksOnlyWhenEmpty(a + b, holding)
  {
    forall k | 0 <= k < |a + b| && (a + b)[k] == PickUpTip
      ensures !Holding((a + b)[..k], holding)
    {
      if k < |a| {
        assert (a + b)[..k] == a[..k];
      } else {
        assert (a + b)[..k] == a + b[..k - |a|];
        assert b[k - |a|] == PickUpTip;
        HoldingAppend(a, b[..k - |a|], holding);
      }
    }
  }

  lemma TrialHandlesTips(volume: real, trial: int, well: Well, holding: bool)
    ensures PicksOnlyWhenEmpty(TrialEvents(volume, trial, well, holding), holding)
    ensures !Holding(TrialEvents(volume, trial, well, holding), holding)
  {
    var t := TrialEvents(volume, trial, well, holding);
    forall k | 0 <= k < |t| && t[k] == PickUpTip
      ensures !Holding(t[..k], holding)
    {
      if holding {
        assert k == 1;
        assert t[..1] == [DropTip];
        assert Holding(t[..1][..0], holding) == holding;
      } else {
        assert k == 0;
      }
    }
  }

  lemma {:induction false} TrialsHandleTips(schedule: seq<(real, int)>, well: Well, holding: bool)
    ensures PicksOnlyWhenEmpty(TrialsEvents(schedule, well, holding), holding)
    ensures Holding(TrialsEvents(schedule, well, holding), holding) == (holding && |schedule| == 0)
  {
    if |schedule| > 0 {
      var init := schedule[..|schedule| - 1];
      var last := schedule[|schedule| - 1];
      TrialsHandleTips(init, well, holding);
      var h := |schedule| == 1 && holding;
      TrialHandlesTips(last.0, last.1, well, h);
      PicksOnlyWhenEmptyAppend(TrialsEvents(init, well, holding), TrialEvents(last.0, last.1, well, h), holding);
      HoldingAppend(TrialsEvents(init, well, holding), TrialEvents(last.0, last.1, well, h), holding);
    }
  }

  /** Over the whole run no tip is ever picked up while one is held, and the
      pipette ends without a tip as soon as there was at least one trial. */
  lemma RunHandlesTips(volumes: seq<real>, trials: int, well: Well, holding: bool)
    ensures PicksOnlyWhenEmpty(RunEvents(Schedule(volumes, trials), well, holding), holding)
    ensures Holding(RunEvents(Schedule(volumes, trials), well, holding), holding) == (holding && |Schedule(volumes, trials)| == 0)
  {
    var s := Schedule(volumes, trials);
    TrialsHandleTips(s, well, holding);
    assert PicksOnlyWhenEmpty([RecordStarted], holding);
    PicksOnlyWhenEmptyAppend([RecordStarted], TrialsEvents(s, well, holding), holding);
    HoldingAppend([RecordStarted], TrialsEvents(s, well, holding), holding);
    var body := [RecordStarted] + TrialsEvents(s, well, holding);
    assert PicksOnlyWhenEmpty([Delay(SettleSeconds)], Holding(body, holding));
    PicksOnlyWhenEmptyAppend(body, [Delay(SettleSeconds)], holding);
    HoldingAppend(body, [Delay(SettleSeconds)], holding);
  }

  /** The aspirate and dispense calls of a trace, in order. */
  function LiquidOps(events: seq<Event>): seq<Event>
  {
    if |events| == 0 then []
    else
      var last := events[|events| - 1];
      LiquidOps(events[..|events| - 1]) + (if last.LiquidAspirate? || last.LiquidDispense? then [last] else [])
  }

  /** For each scheduled trial, an aspirate of its volume from the well and a
      dispense of the same volume into it. */
  function PairedOps(schedule: seq<(real, int)>, well: Well): seq<Event>
  {
    if |schedule| == 0 then []
    else
      var v := schedule[|schedule| - 1].0;
      PairedOps(schedule[..|schedule| - 1], well) + [LiquidAspirate(v, well), LiquidDispense(v, well)]
  }

  lemma {:induction false} LiquidOpsAppend(a: seq<Event>, b: seq<Event>)
    ensures LiquidOps(a + b) == LiquidOps(a) + LiquidOps(b)
    decreases |b|
  {
    if |b| == 0 {
      assert a + b == a;
    } else {
      assert (a + b)[..|a + b| - 1] == a + b[..|b| - 1];
      LiquidOpsAppend(a, b[..|b| - 1]);
    }
  }

  lemma TrialLiquidOps(volume: real, trial: int, well: Well, holding: bool)
    ensures LiquidOps(TrialEvents(volume, trial, well, holding)) == [LiquidAspirate(volume, well), LiquidDispense(volume, well)]
  {
    var pre: seq<Event> := if holding then [DropTip] else [];
    var body := TrialBody(volume, trial, well);
    LiquidOpsAppend(pre, body);
    assert pre == [] || pre[..0] == [];
    assert body[..1][..0] == [];
    assert LiquidOps(body[..1]) == [];
    assert body[..2][..1] == body[..1];
    assert LiquidOps(body[..2]) == [LiquidAspirate(volume, well)];
    assert body[..3][..2] == body[..2];
    assert body[..4][..3] == body[..3];
    assert LiquidOps(body[..4]) == [LiquidAspirate(volume, well), LiquidDispense(volume, well)];
    assert body[..5][..4] == body[..4];
    assert body[..6][..5] == body[..5];
    assert body[..6] == body;
  }

  lemma {:induction false} TrialsLiquidOps(schedule: seq<(real, int)>, well: Well, holding: bool)
    ensures LiquidOps(TrialsEvents(schedule, well, holding)) == PairedOps(schedule, well)
  {
    if |schedule| > 0 {
      var init := schedule[..|schedule| - 1];
      var last := schedule[|schedule| - 1];
      TrialsLiquidOps(init, well, holding);
      LiquidOpsAppend(TrialsEvents(init, well, holding), TrialEvents(last.0, last.1, well, |schedule| == 1 && holding));
      TrialLiquidOps(last.0, last.1, well, |schedule| == 1 && holding);
    }
  }

  /** The liquid handled by a run that does not raise: every scheduled trial
      aspirates its volume from the gravimetric well and dispenses that same
      volume back, one trial after another. */
  lemma RunLiquidOps(volumes: seq<real>, trials: int, well: Well, holding: bool)
    ensures LiquidOps(RunEvents(Schedule(volumes, trials), well, holding)) == PairedOps(Schedule(volumes, trials), well)
  {
    var s := Schedule(volumes, trials);
    TrialsLiquidOps(s, well, holding);
    LiquidOpsAppend([RecordStarted], TrialsEvents(s, well, holding));
    LiquidOpsAppend([RecordStarted] + TrialsEvents(s, well, holding), [Delay(SettleSeconds)]);
    assert LiquidOps([RecordStarted]) == [];
    assert LiquidOps([Delay(SettleSeconds)]) == [];
  }
}

/** The 96-channel tip pick-up bench script: its constants, the jog loop
    with its own step list, the plunger quantities `_run` derives from a
    test's volumes, and the plunger moves `_run` makes with them. The
    terminal, the CAN driver and the head and jaw moves of `_run` are not
    part of this model. */
module Head96Script {
  import opened Common
  import opened ScriptCommon

  /** Nominal microlitres per millimetre of plunger travel. */
  const IdealUlPerMm: real := 15.904

  /** Plunger positions, mm below home. */
  const PlungerBottom: real := 66.0
  const PlungerBlowOut: real := 71.0

  const DefaultDispenseSpeedUl: real := 600.0
  const DefaultTrailingSpeedMm: real := 1.0

  /** Homing speed of the gantry in `home_gantry_xy`, mm/s. */
  const HomeGantrySpeed: real := 20.0

  /** `_jog_axis`'s step list: it starts at 10 mm (index 3) and `+` clamps
      the index at 5. */
  const JogSteps: JogConfig := JogConfig([0.1, 0.5, 1.0, 10.0, 20.0, 50.0], 3, 5)

  /** Whatever keys are pressed the step index stays in [0, 5], so the step
      is always an entry of the list, and it starts at 10 mm. */
  lemma JogStepStaysListed(onlyZ: bool, p0: map<string, real>, keys: seq<char>)
    ensures WellFormed(JogSteps) && JogStart(JogSteps, p0).step == 10.0
    ensures var s := JogRun(JogSteps, onlyZ, JogStart(JogSteps, p0), keys).state;
      0 <= s.index <= 5 && s.step == JogSteps.stepSize[s.index]
  {
    assert WellFormed(JogSteps);
  }

  /** One entry of `TESTS`. */
  datatype TestParams = TestParams(
    tipVolume: int,
    aspirateVolumeUl: real,
    aspirateSpeedUlPerSec: real,
    leadingAirGapUl: real,
    trailingAirGapUl: real)

  /** The plunger quantities `_run` works out before moving anything. */
  datatype PlungerPlan = PlungerPlan(
    aspirateMm: real,
    aspirateSpeedMm: real,
    leadingAirGapMm: real,
    trailingAirGapMm: real,
    dispenseMm: real)

  /** The derivation at the start of `_run`: the aspirate travel from the
      accuracy table, its speed so that it takes as long as the volume
      takes at the test's flow rate, the air gaps at the nominal
      microlitres per millimetre, and a dispense covering all three. The
      table lookup's error comes first; the two divisions raise
      ZeroDivisionError on a zero flow rate or a zero volume. */
  function DerivePlungerPlan(table: seq<TableEntry>, test: TestParams): (r: Result<PlungerPlan, ScriptError>)
    ensures PlungerDistance(table, test.aspirateVolumeUl).Failure? ==>
      r == Failure(PlungerDistance(table, test.aspirateVolumeUl).error)
    ensures PlungerDistance(table, test.aspirateVolumeUl).Success? ==>
      (r.Success? <==> test.aspirateSpeedUlPerSec != 0.0 && test.aspirateVolumeUl != 0.0)
      && (r.Failure? ==> r.error == ZeroDivisionError)
    ensures r.Success? ==>
      && r.value.aspirateMm == PlungerDistance(table, test.aspirateVolumeUl).value
      && r.value.aspirateSpeedMm * test.aspirateVolumeUl == r.value.aspirateMm * test.aspirateSpeedUlPerSec
      && r.value.leadingAirGapMm * IdealUlPerMm == test.leadingAirGapUl
      && r.value.trailingAirGapMm * IdealUlPerMm == test.trailingAirGapUl
      && r.value.dispenseMm == r.value.leadingAirGapMm + r.value.aspirateMm + r.value.trailingAirGapMm
  {
    match PlungerDistance(table, test.aspirateVolumeUl)
    case Failure(e) => Failure(e)
    case Success(aspirateMm) => PlanFromTravel(aspirateMm, test)
  }

  /** The rest of the derivation, once the aspirate travel is known. */
  function PlanFromTravel(aspirateMm: real, test: TestParams): (r: Result<PlungerPlan, ScriptError>)
    ensures r.Success? <==> test.aspirateSpeedUlPerSec != 0.0 && test.aspirateVolumeUl != 0.0
    ensures r.Failure? ==> r.error == ZeroDivisionError
    ensures r.Success? ==>
      && r.value.aspirateMm == aspirateMm
      && r.value.aspirateSpeedMm * test.aspirateVolumeUl == aspirateMm * test.aspirateSpeedUlPerSec
      && r.value.leadingAirGapMm * IdealUlPerMm == test.leadingAirGapUl
      && r.value.trailingAirGapMm * IdealUlPerMm == test.trailingAirGapUl
      && r.value.dispenseMm == r.value.leadingAirGapMm + aspirateMm + r.value.trailingAirGapMm
  {
    if test.aspirateSpeedUlPerSec == 0.0 then Failure(ZeroDivisionError)
    else
      var aspirateSeconds := test.aspirateVolumeUl / test.aspirateSpeedUlPerSec;
      if aspirateSeconds == 0.0 then Failure(ZeroDivisionError)
      else
        var aspirateSpeedMm := aspirateMm / aspirateSeconds;
        var leadingAirGapMm := test.leadingAirGapUl / IdealUlPerMm;
        var trailingAirGapMm := test.trailingAirGapUl / IdealUlPerMm;
        SpeedFromSeconds(aspirateMm, test.aspirateVolumeUl, test.aspirateSpeedUlPerSec);
        Success(PlungerPlan(aspirateMm, aspirateSpeedMm, leadingAirGapMm, trailingAirGapMm,
                            leadingAirGapMm + aspirateMm + trailingAirGapMm))
  }

  lemma SpeedFromSeconds(mm: real, volume: real, flow: real)
    requires flow != 0.0 && volume / flow != 0.0
    ensures (mm / (volume / flow)) * volume == mm * flow
  {
    var t := volume / flow;
    assert t * flow == volume;
    calc {
      (mm / t) * volume;
      (mm / t) * (t * flow);
      ((mm / t) * t) * flow;
      mm * flow;
    }
  }

  // ---------------------------------------------------------------------
  // The plunger moves of `_run`
  // ---------------------------------------------------------------------

  /** `move_plunger(distance, velocity)`: positive velocity drives the
      plunger down, away from home. */
  datatype PlungerMove = PlungerMove(distance: real, velocity: real)

  /** How far down one move takes the plunger. */
  function SignedTravel(m: PlungerMove): real
  {
    if m.velocity > 0.0 then AbsReal(m.distance) else -AbsReal(m.distance)
  }

  /** How far down a sequence of moves takes the plunger. */
  function NetTravel(moves: seq<PlungerMove>): real
  {
    if |moves| == 0 then 0.0 else SignedTravel(moves[0]) + NetTravel(moves[1..])
  }

  lemma {:induction false} NetTravelAppend(a: seq<PlungerMove>, b: seq<PlungerMove>)
    ensures NetTravel(a + b) == NetTravel(a) + NetTravel(b)
    decreases |a|
  {
    if |a| > 0 {
      assert (a + b)[0] == a[0] && (a + b)[1..] == a[1..] + b;
      NetTravelAppend(a[1..], b);
    } else {
      assert a + b == b;
    }
  }

  lemma NetTravelPair(m0: PlungerMove, m1: PlungerMove)
    ensures NetTravel([m0, m1]) == SignedTravel(m0) + SignedTravel(m1)
  {
    assert [m0, m1][1..] == [m1] && [m1][1..] == [];
    assert NetTravel([m1]) == SignedTravel(m1) + NetTravel([]);
  }

  /** The pre-wet loop: `n` times up by the aspirate travel and back. */
  function PreWetMoves(plan: PlungerPlan, n: nat): (r: seq<PlungerMove>)
    ensures |r| == 2 * n
    ensures forall i :: 0 <= i < |r| ==>
      r[i] == PlungerMove(plan.aspirateMm, if i % 2 == 0 then -plan.aspirateSpeedMm else plan.aspirateSpeedMm)
  {
    if n == 0 then []
    else
      var pair := [PlungerMove(plan.aspirateMm, -plan.aspirateSpeedMm), PlungerMove(plan.aspirateMm, plan.aspirateSpeedMm)];
      var rest := PreWetMoves(plan, n - 1);
      assert forall i :: 2 <= i < 2 * n ==> (pair + rest)[i] == rest[i - 2] && (i - 2) % 2 == i % 2;
      pair + rest
  }

  lemma {:induction false} PreWetReturns(plan: PlungerPlan, n: nat)
    requires plan.aspirateSpeedMm != 0.0
    ensures NetTravel(PreWetMoves(plan, n)) == 0.0
  {
    if n > 0 {
      var pair := [PlungerMove(plan.aspirateMm, -plan.aspirateSpeedMm), PlungerMove(plan.aspirateMm, plan.aspirateSpeedMm)];
      NetTravelAppend(pair, PreWetMoves(plan, n - 1));
      PreWetReturns(plan, n - 1);
      NetTravelPair(pair[0], pair[1]);
    }
  }

  function PreWet(plan: PlungerPlan, preWet: bool): (r: seq<PlungerMove>)
    ensures |r| == if preWet then 10 else 0
  {
    if preWet then PreWetMoves(plan, 5) else []
  }

  /** The moves before the dispense, as `_run` makes them: down to the
      bottom, a move printed as aspirating the leading air gap, which is the
      trailing gap's travel driven DOWN at +10 mm/s, the optional pre-wet,
      the aspirate, and a move printed as the trailing air gap, which is
      the leading gap's travel driven up. */
  function IntakeMovesAsWritten(plan: PlungerPlan, preWet: bool): (r: seq<PlungerMove>)
    ensures |r| == 4 + |PreWet(plan, preWet)| && r[2..|r| - 2] == PreWet(plan, preWet)
    ensures r[0] == PlungerMove(PlungerBottom, 10.0)
    ensures r[1].distance == plan.trailingAirGapMm && r[1].velocity > 0.0
    ensures r[|r| - 2] == PlungerMove(plan.aspirateMm, -plan.aspirateSpeedMm)
    ensures r[|r| - 1].distance == plan.leadingAirGapMm && r[|r| - 1].velocity < 0.0
  {
    [PlungerMove(PlungerBottom, 10.0), PlungerMove(plan.trailingAirGapMm, 10.0)]
      + PreWet(plan, preWet)
      + [PlungerMove(plan.aspirateMm, -plan.aspirateSpeedMm),
         PlungerMove(plan.leadingAirGapMm, -DefaultTrailingSpeedMm)]
  }

  /** The same moves with both air gaps drawn up, as every other intake move
      of the script is: the leading gap at 10 mm/s before the liquid and the
      trailing gap at the trailing speed after it. */
  function IntakeMoves(plan: PlungerPlan, preWet: bool): (r: seq<PlungerMove>)
    ensures |r| == 4 + |PreWet(plan, preWet)| && r[2..|r| - 2] == PreWet(plan, preWet)
    ensures r[0] == PlungerMove(PlungerBottom, 10.0)
    ensures r[1].distance == plan.leadingAirGapMm && r[1].velocity < 0.0
    ensures r[|r| - 2] == PlungerMove(plan.aspirateMm, -plan.aspirateSpeedMm)
    ensures r[|r| - 1].distance == plan.trailingAirGapMm && r[|r| - 1].velocity < 0.0
  {
    [PlungerMove(PlungerBottom, 10.0), PlungerMove(plan.leadingAirGapMm, -10.0)]
      + PreWet(plan, preWet)
      + [PlungerMove(plan.aspirateMm, -plan.aspirateSpeedMm),
         PlungerMove(plan.trailingAirGapMm, -DefaultTrailingSpeedMm)]
  }

  /** The dispense of all three volumes at the default dispense speed, then
      the blow-out from the bottom to the blow-out position. */
  function OutputMoves(plan: PlungerPlan): (r: seq<PlungerMove>)
    ensures |r| == 2
    ensures r[0].distance == plan.dispenseMm && r[0].velocity > 0.0
    ensures r[1] == PlungerMove(PlungerBlowOut - PlungerBottom, 10.0)
  {
    [PlungerMove(plan.dispenseMm, DefaultDispenseSpeedUl / IdealUlPerMm),
     PlungerMove(PlungerBlowOut - PlungerBottom, 10.0)]
  }

  /** A plan whose travels are all non-negative and whose aspirate speed is
      positive, as any plan derived from a sensible table and test is. */
  predicate Sensible(plan: PlungerPlan)
  {
    && plan.aspirateMm >= 0.0 && plan.aspirateSpeedMm > 0.0
    && plan.leadingAirGapMm >= 0.0 && plan.trailingAirGapMm >= 0.0
    && plan.dispenseMm == plan.leadingAirGapMm + plan.aspirateMm + plan.trailingAirGapMm
  }

  lemma OutputTravel(plan: PlungerPlan)
    requires Sensible(plan)
    ensures NetTravel(OutputMoves(plan)) == plan.dispenseMm + (PlungerBlowOut - PlungerBottom)
  {
    var m := OutputMoves(plan);
    assert DefaultDispenseSpeedUl / IdealUlPerMm > 0.0;
    NetTravelPair(m[0], m[1]);
  }

  /** As written, the plunger ends the dispense twice the trailing air gap
      below the bottom, and the blow-out takes it that far past the
      blow-out position. */
  lemma AsWrittenOvershootsBlowOut(plan: PlungerPlan, preWet: bool)
    requires Sensible(plan)
    ensures NetTravel(IntakeMovesAsWritten(plan, preWet)) + plan.dispenseMm
      == PlungerBottom + 2.0 * plan.trailingAirGapMm
    ensures NetTravel(IntakeMovesAsWritten(plan, preWet) + OutputMoves(plan))
      == PlungerBlowOut + 2.0 * plan.trailingAirGapMm
    ensures plan.trailingAirGapMm > 0.0 ==>
      NetTravel(IntakeMovesAsWritten(plan, preWet) + OutputMoves(plan)) > PlungerBlowOut
  {
    var head := [PlungerMove(PlungerBottom, 10.0), PlungerMove(plan.trailingAirGapMm, 10.0)];
    var tail := [PlungerMove(plan.aspirateMm, -plan.aspirateSpeedMm),
                 PlungerMove(plan.leadingAirGapMm, -DefaultTrailingSpeedMm)];
    IntakeTravel(head, PreWet(plan, preWet), tail, plan);
    NetTravelPair(head[0], head[1]);
    NetTravelPair(tail[0], tail[1]);
    NetTravelAppend(IntakeMovesAsWritten(plan, preWet), OutputMoves(plan));
    OutputTravel(plan);
  }

  /** With both air gaps drawn up the dispense brings the plunger back to the
      bottom, and the blow-out ends exactly at the blow-out position. */
  lemma IntakeThenOutputEndsAtBlowOut(plan: PlungerPlan, preWet: bool)
    requires Sensible(plan)
    ensures NetTravel(IntakeMoves(plan, preWet)) + plan.dispenseMm == PlungerBottom
    ensures NetTravel(IntakeMoves(plan, preWet) + OutputMoves(plan)) == PlungerBlowOut
  {
    var head := [PlungerMove(PlungerBottom, 10.0), PlungerMove(plan.leadingAirGapMm, -10.0)];
    var tail := [PlungerMove(plan.aspirateMm, -plan.aspirateSpeedMm),
                 PlungerMove(plan.trailingAirGapMm, -DefaultTrailingSpeedMm)];
    IntakeTravel(head, PreWet(plan, preWet), tail, plan);
    NetTravelPair(head[0], head[1]);
    NetTravelPair(tail[0], tail[1]);
    NetTravelAppend(IntakeMoves(plan, preWet), OutputMoves(plan));
    OutputTravel(plan);
  }

  lemma IntakeTravel(head: seq<PlungerMove>, wet: seq<PlungerMove>, tail: seq<PlungerMove>, plan: PlungerPlan)
    requires plan.aspirateSpeedMm != 0.0
    requires wet == [] || wet == PreWetMoves(plan, 5)
    ensures NetTravel(head + wet + tail) == NetTravel(head) + NetTravel(tail)
  {
    NetTravelAppend(head + wet, tail);
    NetTravelAppend(head, wet);
    if wet != [] {
      PreWetReturns(plan, 5);
    }
  }

  /** A concrete case: `t1000-10ul` leaves a 10 uL trailing gap, so the plunger
      as written blows out about 1.26 mm past the blow-out position. */
  lemma AsWrittenT1000TenMicrolitres(aspirateMm: real, aspirateSpeedMm: real)
    requires aspirateMm >= 0.0 && aspirateSpeedMm > 0.0
    ensures var plan := PlungerPlan(aspirateMm, aspirateSpeedMm, 10.0 / IdealUlPerMm, 10.0 / IdealUlPerMm,
                                    10.0 / IdealUlPerMm + aspirateMm + 10.0 / IdealUlPerMm);
      NetTravel(IntakeMovesAsWritten(plan, false) + OutputMoves(plan)) == PlungerBlowOut + 20.0 / IdealUlPerMm
  {
    var plan := PlungerPlan(aspirateMm, aspirateSpeedMm, 10.0 / IdealUlPerMm, 10.0 / IdealUlPerMm,
                            10.0 / IdealUlPerMm + aspirateMm + 10.0 / IdealUlPerMm);
    AsWrittenOvershootsBlowOut(plan, false);
  }

  /** A plan derived from a table whose travels and flow rates are positive
      is sensible, so the corrected moves end at the blow-out position. */
  lemma DerivedPlanIsSensible(table: seq<TableEntry>, test: TestParams)
    requires DerivePlungerPlan(table, test).Success?
    requires PlungerDistance(table, test.aspirateVolumeUl).value > 0.0
    requires test.aspirateVolumeUl > 0.0 && test.aspirateSpeedUlPerSec > 0.0
    requires test.leadingAirGapUl >= 0.0 && test.trailingAirGapUl >= 0.0
    ensures Sensible(DerivePlungerPlan(table, test).value)
  {
    var p := DerivePlungerPlan(table, test).value;
    assert p.aspirateSpeedMm * test.aspirateVolumeUl == p.aspirateMm * test.aspirateSpeedUlPerSec;
    assert p.aspirateMm * test.aspirateSpeedUlPerSec > 0.0;
  }
}

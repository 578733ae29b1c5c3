/** The single-channel tip pick-up bench script: its constants, the module
    globals that track the left head's absolute Z, the moves it builds from
    them, and the jog loop with its own step list. The terminal, the CAN
    driver and the interactive procedure `run` are not part of this model. */
module PickUpTipScript {
  import opened Common
  import opened Motion
  import opened ScriptCommon

  /** The tip-motor moves `_run` builds for grabbing and dropping tips. */
  const GrabSpeed: real := 5.5
  const GrabDistance: real := 19.0
  const DropSpeed: real := 5.5
  const DropDistance: real := 29.0

  /** Homing speed of the gantry in `home_xy`, mm/s. */
  const HomeXYSpeed: real := 10.5

  /** `_jog_axis`'s step list: it starts at 50 mm (index 7) and `+` clamps
      the index at 8. */
  const JogSteps: JogConfig := JogConfig([0.05, 0.1, 0.5, 1.0, 5.0, 10.0, 20.0, 50.0, 100.0], 7, 8)

  /** Whatever keys are pressed the step index stays in [0, 8], so the step
      is always an entry of the list, and it starts at 50 mm. */
  lemma JogStepStaysListed(onlyZ: bool, p0: map<string, real>, keys: seq<char>)
    ensures WellFormed(JogSteps) && JogStart(JogSteps, p0).step == 50.0
    ensures var s := JogRun(JogSteps, onlyZ, JogStart(JogSteps, p0), keys).state;
      0 <= s.index <= 8 && s.step == JogSteps.stepSize[s.index]
  {
    assert WellFormed(JogSteps);
  }

  /** `grab_tips` and `drop_tips`: the tip motor driven forward for the time
      the grab (19 mm) or drop (29 mm) distance takes at 5.5 mm/s. */
  lemma TipMovesBuild()
    ensures MovePipetteMechanism(GrabDistance, GrabSpeed).Success?
    ensures MovePipetteMechanism(GrabDistance, GrabSpeed).value[0][0][PipetteLeft].durationSec * 5.5 == 19.0
    ensures MovePipetteMechanism(DropDistance, DropSpeed).Success?
    ensures MovePipetteMechanism(DropDistance, DropSpeed).value[0][0][PipetteLeft].durationSec * 5.5 == 29.0
  {
  }

  /** The module globals `CURRENT_Z_POS` and `CURRENT_TIP_LENGTH`: the
      tracked absolute position of the left head (0 at home, positive
      downward) and the length of the tip it carries. */
  class ZTracker {
    var currentZPos: real
    var currentTipLength: real

    /** Both start at 0 when the script is loaded. */
    constructor()
      ensures currentZPos == 0.0 && currentTipLength == 0.0
    {
      currentZPos := 0.0;
      currentTipLength := 0.0;
    }

    /** `move_z_axis_to(position, velocity)`: the head is sent to `position`
        less the tip length. The tracked Z is updated before the plan is
        built, so it moves even when a zero velocity makes the build fail.
        The commanded velocity is `+|velocity|` exactly when the target is
        below the old Z, and velocity times duration is exactly the change of
        the tracked Z. */
    method MoveZAxisTo(position: real, velocity: real) returns (r: Result<MoveGroups, ScriptError>)
      modifies this`currentZPos
      ensures currentZPos == position - currentTipLength
      ensures r.Failure? <==> velocity == 0.0
      ensures r.Failure? ==> r.error == ZeroDivisionError
      ensures r.Success? ==> |r.value| == 1 && |r.value[0]| == 1 && r.value[0][0].Keys == {HeadL}
      ensures r.Success? ==> var st := r.value[0][0][HeadL];
        && st.SingleAxisStep? && st.distanceMm == 0.0
        && AbsReal(st.velocityMmSec) == AbsReal(velocity)
        && (st.velocityMmSec > 0.0 <==> currentZPos > old(currentZPos))
        && old(currentZPos) + st.velocityMmSec * st.durationSec == currentZPos
    {
      var target := position - currentTipLength;
      var v := if target > currentZPos then AbsReal(velocity) else AbsReal(velocity) * -1.0;
      var distance := AbsReal(currentZPos - target);
      currentZPos := target;
      r := MoveSingleAxis(HeadL, distance, v);
      if r.Success? {
        var st := r.value[0][0][HeadL];
        if v > 0.0 {
          assert v * st.durationSec == st.durationSec * AbsReal(v);
        } else {
          assert v * st.durationSec == -(st.durationSec * AbsReal(v));
        }
      }
    }

    /** `home_z_axis()`: the homing plan, with the tracked Z reset to 0 as
        soon as the plan is built, whether or not it is ever run. */
    method HomeZAxis() returns (p: MoveGroups)
      modifies this`currentZPos
      ensures currentZPos == 0.0
      ensures p == HomeZPlan()
    {
      p := HomeZPlan();
      currentZPos := 0.0;
    }
  }

  /** Homing the head and then moving it to `position` commands a move from
      home down to `position` less the tip length. */
  method HomeThenMoveTo(tracker: ZTracker, position: real, velocity: real) returns (r: Result<MoveGroups, ScriptError>)
    requires velocity != 0.0
    modifies tracker
    ensures tracker.currentTipLength == old(tracker.currentTipLength)
    ensures tracker.currentZPos == position - tracker.currentTipLength
    ensures r.Success? && |r.value| == 1 && |r.value[0]| == 1 && r.value[0][0].Keys == {HeadL}
    ensures r.value[0][0][HeadL].SingleAxisStep?
    ensures r.value[0][0][HeadL].velocityMmSec * r.value[0][0][HeadL].durationSec == position - tracker.currentTipLength
  {
    var home := tracker.HomeZAxis();
    r := tracker.MoveZAxisTo(position, velocity);
  }

  /** `home_xy()`: X then Y, each driven back at 10.5 mm/s until its switch. */
  lemma HomeXYOrder()
    ensures var p := HomeGantryXY(HomeXYSpeed);
      && p[0][0].Keys == {GantryX} && p[1][0].Keys == {GantryY}
      && p[0][0][GantryX].velocityMmSec == -10.5 && p[0][0][GantryX].stopCondition == LimitSwitch
  {
  }
}

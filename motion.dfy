/** The motion vocabulary the probing procedures and the bench scripts build
    plans from: bus node identities, stop conditions and the step records
    handed to the move-group runner. Running a plan is the runner's business
    and is not part of this model; here a plan is only a value. */
module Motion {
  import opened Common

  /** Bus nodes named by the modelled code. */
  datatype NodeId =
    | HeadL | HeadR | GantryX | GantryY
    | PipetteLeft | PipetteRight | Gripper

  datatype MoveStopCondition = NoStop | LimitSwitch | SyncLine | SensorThreshold

  datatype PipetteTipActionType = PickUp | Drop

  /** One node's motion in a group, as the scripts construct it. */
  datatype MoveStep =
    | SingleAxisStep(distanceMm: real, velocityMmSec: real, durationSec: real,
                     stopCondition: MoveStopCondition)
    | TipActionStep(velocityMmSec: real, durationSec: real,
                    stopCondition: MoveStopCondition, action: PipetteTipActionType)
      /** `create_home_step(distance, velocity)`, whose body is not part of
          this model: kept as the arguments it was given. */
    | HomeStep(homeDistance: real, homeVelocity: real)

  /** `MoveGroupStep`: every node's step of one stage, dispatched together. */
  type MoveGroupStep = map<NodeId, MoveStep>

  /** `MoveGroups`, the plan a `MoveGroupRunner` is built from: groups run
      strictly in order, each a sequence of group steps. */
  type MoveGroups = seq<seq<MoveGroupStep>>

  /** `[[{node: step}]]`: one group holding one node's step. */
  function SingleStepGroups(node: NodeId, step: MoveStep): (p: MoveGroups)
    ensures |p| == 1 && |p[0]| == 1 && p[0][0].Keys == {node} && p[0][0][node] == step
  {
    [[map[node := step]]]
  }

  /** `abs(distance / speed)`: the time to cover the distance at the speed. */
  function Duration(d: real, s: real): (t: real)
    requires s != 0.0
    ensures t >= 0.0 && t * AbsReal(s) == AbsReal(d)
  {
    DurationTimesSpeed(d, s);
    AbsReal(d / s)
  }

  lemma DurationTimesSpeed(d: real, s: real)
    requires s != 0.0
    ensures AbsReal(d / s) * AbsReal(s) == AbsReal(d)
  {
    assert (d / s) * s == d;
    if d / s < 0.0 {
      if s < 0.0 {
        assert (-(d / s)) * (-s) == d;
      } else {
        assert (-(d / s)) * s == -d;
      }
    } else {
      if s < 0.0 {
        assert (d / s) * (-s) == -d;
      }
    }
  }

  /** Velocity times duration is the signed travel: the step covers the
      distance forward when the velocity is positive and backward otherwise. */
  lemma SignedTravel(d: real, v: real)
    requires v != 0.0
    ensures v * Duration(d, v) == (if v > 0.0 then AbsReal(d) else -AbsReal(d))
  {
    var t := Duration(d, v);
    if v < 0.0 {
      assert v * t == -(t * AbsReal(v));
    }
  }
}

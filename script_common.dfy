/** What the two tip pick-up bench scripts share: the accuracy-table lookup
    that turns a volume into plunger travel, the 16.16 fixed-point motor
    current payloads, the one-node move-group builders, and the keyboard jog
    loop that drives the gantry and the head a step at a time. The two
    scripts carry textually the same code for these, differing only in
    constants (the jog step list, its start index and clamp, the homing
    speed of the gantry), so the code is written here once over those
    constants and each script's module fixes them. The bus messenger is
    foreign: a `Messenger` records, in order, every message sent and every
    plan run through it. */
module ScriptCommon {
  import opened Common
  import opened Motion

  /** The errors the script helpers can raise. */
  datatype ScriptError = ValueError | ZeroDivisionError

  // ---------------------------------------------------------------------
  // Accuracy-adjustment table lookup
  // ---------------------------------------------------------------------

  /** One `(volume, slope, intercept)` row of an accuracy-adjustment table. */
  datatype TableEntry = TableEntry(volume: real, slope: real, intercept: real)

  /** Rows `i` and `i + 1` strictly bracket the volume. */
  predicate Brackets(table: seq<TableEntry>, i: int, volume: real)
  {
    0 <= i < |table| - 1 && table[i].volume < volume < table[i + 1].volume
  }

  /** The plunger travel for `volume` read off one row: the volume over the
      row's microlitres-per-millimetre at that volume. */
  function Travel(e: TableEntry, volume: real): (r: Result<real, ScriptError>)
    ensures r.Failure? <==> volume * e.slope + e.intercept == 0.0
    ensures r.Failure? ==> r.error == ZeroDivisionError
    ensures r.Success? ==> r.value * (volume * e.slope + e.intercept) == volume
  {
    var ulPerMm := volume * e.slope + e.intercept;
    if ulPerMm == 0.0 then Failure(ZeroDivisionError) else Success(volume / ulPerMm)
  }

  /** The lookup from row `i` on. */
  function LookupFrom(table: seq<TableEntry>, volume: real, i: nat): (r: Result<real, ScriptError>)
    ensures r == Failure(ValueError) <==> forall j :: i <= j < |table| - 1 ==> !Brackets(table, j, volume)
    ensures r != Failure(ValueError) ==>
      exists j :: i <= j && Brackets(table, j, volume) && r == Travel(table[j], volume)
    decreases |table| - i
  {
    if i + 1 >= |table| then Failure(ValueError)
    else if Brackets(table, i, volume) then Travel(table[i], volume)
    else LookupFrom(table, volume, i + 1)
  }

  /** `_get_plunger_distance_for_volume`: the travel read off the first
      pair of adjacent rows that strictly brackets the volume. */
  function PlungerDistance(table: seq<TableEntry>, volume: real): (r: Result<real, ScriptError>)
    ensures r == Failure(ValueError) <==> forall j :: 0 <= j < |table| - 1 ==> !Brackets(table, j, volume)
    ensures r != Failure(ValueError) ==> exists j :: Brackets(table, j, volume) && r == Travel(table[j], volume)
  {
    LookupFrom(table, volume, 0)
  }

  /** The scan over adjacent rows, returning at the first bracketing pair. */
  method GetPlungerDistanceForVolume(table: seq<TableEntry>, volume: real) returns (r: Result<real, ScriptError>)
    ensures r == PlungerDistance(table, volume)
  {
    var i: nat := 0;
    while i + 1 < |table|
      invariant LookupFrom(table, volume, i) == PlungerDistance(table, volume)
      decreases |table| - i
    {
      var thisEntry := table[i];
      var nextEntry := table[i + 1];
      if thisEntry.volume < volume < nextEntry.volume {
        LookupFromAtBracket(table, volume, i);
        var ulPerMm := (volume * thisEntry.slope) + thisEntry.intercept;
        if ulPerMm == 0.0 {
          return Failure(ZeroDivisionError);
        }
        TravelByDivision(thisEntry, volume, ulPerMm);
        return Success(volume / ulPerMm);
      }
      i := i + 1;
    }
    return Failure(ValueError);
  }

  lemma LookupFromAtBracket(table: seq<TableEntry>, volume: real, i: nat)
    requires i + 1 < |table| && table[i].volume < volume < table[i + 1].volume
    ensures LookupFrom(table, volume, i) == Travel(table[i], volume)
  {
    assert Brackets(table, i, volume);
  }

  lemma TravelByDivision(e: TableEntry, volume: real, ulPerMm: real)
    requires ulPerMm == volume * e.slope + e.intercept && ulPerMm != 0.0
    ensures Travel(e, volume) == Success(volume / ulPerMm)
  {
    assert Travel(e, volume).Success?;
    assert Travel(e, volume).value == volume / (volume * e.slope + e.intercept);
  }

  lemma {:induction false} LookupFromFirstBracket(table: seq<TableEntry>, volume: real, k: nat, i: nat)
    requires k <= i && Brackets(table, i, volume)
    requires forall j :: k <= j < i ==> !Brackets(table, j, volume)
    ensures LookupFrom(table, volume, k) == Travel(table[i], volume)
    decreases i - k
  {
    if k < i {
      assert !Brackets(table, k, volume);
      LookupFromFirstBracket(table, volume, k + 1, i);
    }
  }

  lemma {:induction false} LookupFromNoBracket(table: seq<TableEntry>, volume: real, k: nat)
    ensures LookupFrom(table, volume, k) == Failure(ValueError)
        <==> forall j :: k <= j < |table| - 1 ==> !Brackets(table, j, volume)
    decreases |table| - k
  {
    if k + 1 < |table| {
      LookupFromNoBracket(table, volume, k + 1);
      if Brackets(table, k, volume) {
        assert LookupFrom(table, volume, k) == Travel(table[k], volume);
      }
    }
  }

  /** The result is read off the first bracketing pair, whatever comes after. */
  lemma LookupUsesFirstBracket(table: seq<TableEntry>, volume: real, i: nat)
    requires Brackets(table, i, volume)
    requires forall j :: 0 <= j < i ==> !Brackets(table, j, volume)
    ensures PlungerDistance(table, volume) == Travel(table[i], volume)
  {
    LookupFromFirstBracket(table, volume, 0, i);
  }

  /** The lookup raises ValueError exactly when no adjacent pair strictly
      brackets the volume. */
  lemma LookupFailsIffNoBracket(table: seq<TableEntry>, volume: real)
    ensures PlungerDistance(table, volume) == Failure(ValueError)
        <==> forall j :: 0 <= j < |table| - 1 ==> !Brackets(table, j, volume)
  {
    LookupFromNoBracket(table, volume, 0);
  }

  /** In a table of strictly increasing volumes a volume equal to one of the
      rows is never bracketed, so it is rejected. */
  lemma VolumeAtRowIsRejected(table: seq<TableEntry>, k: int)
    requires 0 <= k < |table|
    requires forall i, j :: 0 <= i < j < |table| ==> table[i].volume < table[j].volume
    ensures PlungerDistance(table, table[k].volume) == Failure(ValueError)
  {
    var volume := table[k].volume;
    forall j | 0 <= j < |table| - 1
      ensures !Brackets(table, j, volume)
    {
      if k <= j {
        assert k == j || table[k].volume < table[j].volume;
      } else {
        assert k == j + 1 || table[j + 1].volume < table[k].volume;
      }
    }
    LookupFailsIffNoBracket(table, volume);
  }

  // ---------------------------------------------------------------------
  // Motor current payloads
  // ---------------------------------------------------------------------

  /** Currents go on the bus as 16.16 fixed point: `2**16` counts per amp. */
  const CurrentScale: real := 65536.0

  /** `int(current * (2**16))`, truncating toward zero. */
  function EncodeCurrent(current: real): int
  {
    Trunc(current * CurrentScale)
  }

  /** The value one count stands for. */
  function DecodeCurrent(n: int): real
  {
    n as real / CurrentScale
  }

  /** A current already on the 1/65536 grid is encoded exactly. */
  lemma EncodeDecodeCurrent(n: int)
    ensures EncodeCurrent(DecodeCurrent(n)) == n
  {
    assert DecodeCurrent(n) * CurrentScale == n as real;
  }

  /** Any other non-negative current is rounded down by less than a count. */
  lemma DecodeEncodeCurrent(current: real)
    requires current >= 0.0
    ensures 0.0 <= current - DecodeCurrent(EncodeCurrent(current)) < 1.0 / CurrentScale
  {
    var n := EncodeCurrent(current);
    assert n as real <= current * CurrentScale < n as real + 1.0;
    assert DecodeCurrent(n) * CurrentScale == n as real;
  }

  /** Larger currents never encode to fewer counts. */
  lemma EncodeCurrentMonotone(a: real, b: real)
    requires 0.0 <= a <= b
    ensures EncodeCurrent(a) <= EncodeCurrent(b)
  {
    assert a * CurrentScale <= b * CurrentScale;
  }

  /** `MotorCurrentPayload(hold_current, run_current)`, in counts. */
  datatype MotorCurrentPayload = MotorCurrentPayload(holdCurrent: int, runCurrent: int)

  /** What a script sends or runs through the messenger. */
  datatype BusEvent =
    | WriteMotorCurrent(node: NodeId, payload: MotorCurrentPayload)
    | RunGroups(plan: MoveGroups)

  /** The CAN messenger, recording what it is asked to do. */
  class Messenger {
    var events: seq<BusEvent>

    constructor()
      ensures events == []
    {
      events := [];
    }

    /** `messenger.send(node_id=node, message=WriteMotorCurrentRequest(...))`. */
    method Send(node: NodeId, payload: MotorCurrentPayload)
      modifies this
      ensures events == old(events) + [WriteMotorCurrent(node, payload)]
    {
      events := events + [WriteMotorCurrent(node, payload)];
    }

    /** `runner.run(can_messenger=messenger)` for a runner built from `plan`. */
    method Run(plan: MoveGroups)
      modifies this
      ensures events == old(events) + [RunGroups(plan)]
    {
      events := events + [RunGroups(plan)];
    }
  }

  /** `hold_current`: the current as holding current, with no run current. */
  method HoldCurrent(messenger: Messenger, current: real, node: NodeId)
    modifies messenger
    ensures messenger.events == old(messenger.events)
      + [WriteMotorCurrent(node, MotorCurrentPayload(EncodeCurrent(current), 0))]
  {
    messenger.Send(node, MotorCurrentPayload(EncodeCurrent(current), EncodeCurrent(0.0)));
  }

  /** `set_current`: the current as run current, with no holding current. */
  method SetCurrent(messenger: Messenger, current: real, node: NodeId)
    modifies messenger
    ensures messenger.events == old(messenger.events)
      + [WriteMotorCurrent(node, MotorCurrentPayload(0, EncodeCurrent(current)))]
  {
    messenger.Send(node, MotorCurrentPayload(EncodeCurrent(0.0), EncodeCurrent(current)));
  }

  // ---------------------------------------------------------------------
  // Move-group builders
  // ---------------------------------------------------------------------

  /** `_calc_time(distance, speed)`, written inline as `abs(distance /
      velocity)` by the single-channel script. */
  function CalcTime(distance: real, speed: real): (r: Result<real, ScriptError>)
    ensures r.Failure? <==> speed == 0.0
    ensures r.Failure? ==> r.error == ZeroDivisionError
    ensures r.Success? ==> r.value >= 0.0 && r.value * AbsReal(speed) == AbsReal(distance)
  {
    if speed == 0.0 then Failure(ZeroDivisionError) else Success(Duration(distance, speed))
  }

  /** `move_x_axis`, `move_y_axis`, `move_z_axis` and `move_plunger`: one
      node moving at `velocity`, whose sign is the direction, for as long as
      `distance` takes at that speed; the step's own distance is left 0. */
  function MoveSingleAxis(node: NodeId, distance: real, velocity: real): (r: Result<MoveGroups, ScriptError>)
    ensures r.Failure? <==> velocity == 0.0
    ensures r.Failure? ==> r.error == ZeroDivisionError
    ensures r.Success? ==> |r.value| == 1 && |r.value[0]| == 1 && r.value[0][0].Keys == {node}
    ensures r.Success? ==> var step := r.value[0][0][node];
      && step.SingleAxisStep? && step.distanceMm == 0.0 && step.velocityMmSec == velocity
      && step.stopCondition == NoStop && step.durationSec >= 0.0
      && step.durationSec * AbsReal(velocity) == AbsReal(distance)
  {
    match CalcTime(distance, velocity)
    case Failure(e) => Failure(e)
    case Success(t) => Success(SingleStepGroups(node, SingleAxisStep(0.0, velocity, t, NoStop)))
  }

  /** `move_pipette_mechanism`: the tip-action motor of the left pipette
      driven at `velocity` for as long as `distance` takes. */
  function MovePipetteMechanism(distance: real, velocity: real): (r: Result<MoveGroups, ScriptError>)
    ensures r.Failure? <==> velocity == 0.0
    ensures r.Failure? ==> r.error == ZeroDivisionError
    ensures r.Success? ==> |r.value| == 1 && |r.value[0]| == 1 && r.value[0][0].Keys == {PipetteLeft}
    ensures r.Success? ==> var step := r.value[0][0][PipetteLeft];
      && step.TipActionStep? && step.velocityMmSec == velocity && step.stopCondition == NoStop
      && step.action == PickUp && step.durationSec * AbsReal(velocity) == AbsReal(distance)
  {
    match CalcTime(distance, velocity)
    case Failure(e) => Failure(e)
    case Success(t) => Success(SingleStepGroups(PipetteLeft, TipActionStep(velocity, t, NoStop, PickUp)))
  }

  /** `home_pipette_jaw`: the jaw driven back at 5.5 mm/s for at most the
      time 40 mm takes, stopping at the limit switch. */
  function HomePipetteJaw(): (p: MoveGroups)
    ensures |p| == 1 && |p[0]| == 1 && p[0][0].Keys == {PipetteLeft}
    ensures p[0][0][PipetteLeft] == TipActionStep(-5.5, Duration(40.0, 5.5), LimitSwitch, PickUp)
    ensures var step := p[0][0][PipetteLeft];
      && step.velocityMmSec < 0.0 && step.durationSec * 5.5 == 40.0
  {
    var velocity := 5.5;
    SingleStepGroups(PipetteLeft, TipActionStep(-velocity, Duration(40.0, velocity), LimitSwitch, PickUp))
  }

  /** `home_z_axis`'s plan: the left head driven up at 10.5 mm/s until the
      limit switch, for at most 100 s. */
  function HomeZPlan(): (p: MoveGroups)
    ensures |p| == 1 && |p[0]| == 1 && p[0][0].Keys == {HeadL}
    ensures p[0][0][HeadL] == SingleAxisStep(0.0, -10.5, 100.0, LimitSwitch)
  {
    SingleStepGroups(HeadL, SingleAxisStep(0.0, -10.5, 100.0, LimitSwitch))
  }

  /** `home_xy` / `home_gantry_xy`: X homes first, then Y, each in its own
      group, both at `-speed` until the limit switch. */
  function HomeGantryXY(speed: real): (p: MoveGroups)
    ensures |p| == 2 && |p[0]| == 1 && |p[1]| == 1
    ensures p[0][0].Keys == {GantryX} && p[1][0].Keys == {GantryY}
    ensures p[0][0][GantryX] == p[1][0][GantryY] == SingleAxisStep(0.0, -speed, 100.0, LimitSwitch)
  {
    var step := SingleAxisStep(0.0, -speed, 100.0, LimitSwitch);
    SingleStepGroups(GantryX, step) + SingleStepGroups(GantryY, step)
  }

  /** `home_plunger`: one home step for the left pipette. */
  function HomePlunger(): (p: MoveGroups)
    ensures |p| == 1 && |p[0]| == 1 && p[0][0].Keys == {PipetteLeft}
    ensures p[0][0][PipetteLeft] == HomeStep(100.0, -5.0)
  {
    SingleStepGroups(PipetteLeft, HomeStep(100.0, -5.0))
  }

  // ---------------------------------------------------------------------
  // Keyboard jog
  // ---------------------------------------------------------------------

  /** The three jogged axes, with the position-map key, the bus node and the
      jog speed (mm/s) of each. */
  datatype Axis = AxisX | AxisY | AxisZ

  function AxisKey(a: Axis): string
  {
    match a
    case AxisX => "gantry_x"
    case AxisY => "gantry_y"
    case AxisZ => "head_l"
  }

  function AxisNode(a: Axis): NodeId
  {
    match a
    case AxisX => GantryX
    case AxisY => GantryY
    case AxisZ => HeadL
  }

  function AxisSpeed(a: Axis): (v: real)
    ensures v > 0.0
  {
    match a
    case AxisX => 30.0
    case AxisY => 60.0
    case AxisZ => 10.5
  }

  /** What a key press does. `Jog(axis, true)` adds the step to the axis's
      counter and drives the axis at `+speed`; `Jog(axis, false)` subtracts
      it and drives at `-speed`. */
  datatype JogAction = Jog(axis: Axis, forward: bool) | StepUp | StepDown | Quit | Save | Ignore

  /** The key dispatch of the jog loop, in the loop's order: `a`/`d` move X
      up/down and `w`/`s` move Y down/up unless only Z may move; `i`/`k`
      move Z down/up; `q` quits; `+`/`-` change the step; Enter saves. */
  function KeyAction(onlyZ: bool, key: char): (r: JogAction)
    ensures r == Quit <==> key == 'q'
    ensures r == StepUp <==> key == '+'
    ensures r == StepDown <==> key == '-'
    ensures r == Save <==> key == '\r' || key == '\n'
    ensures r.Jog? && r.axis == AxisZ <==> key == 'i' || key == 'k'
    ensures r.Jog? && r.axis != AxisZ <==> !onlyZ && (key == 'a' || key == 'd' || key == 'w' || key == 's')
    ensures r.Jog? ==> (r.forward <==> key == 'a' || key == 's' || key == 'k')
  {
    if !onlyZ && key == 'a' then Jog(AxisX, true)
    else if !onlyZ && key == 'd' then Jog(AxisX, false)
    else if !onlyZ && key == 'w' then Jog(AxisY, false)
    else if !onlyZ && key == 's' then Jog(AxisY, true)
    else if key == 'i' then Jog(AxisZ, false)
    else if key == 'k' then Jog(AxisZ, true)
    else if key == 'q' then Quit
    else if key == '+' then StepUp
    else if key == '-' then StepDown
    else if key == '\r' || key == '\n' then Save
    else Ignore
  }

  /** With `only_z` no key moves the gantry. */
  lemma OnlyZKeysMoveOnlyZ(key: char)
    ensures KeyAction(true, key).Jog? ==> KeyAction(true, key).axis == AxisZ
    ensures KeyAction(false, key).Jog? ==> (KeyAction(false, key).axis == AxisZ <==> key == 'i' || key == 'k')
  {
  }

  /** A script's jog constants: the step list, the starting index and the
      index `+` clamps at. */
  datatype JogConfig = JogConfig(stepSize: seq<real>, startIndex: nat, maxIndex: nat)

  predicate WellFormed(cfg: JogConfig)
  {
    && cfg.startIndex <= cfg.maxIndex < |cfg.stepSize|
    && forall i :: 0 <= i < |cfg.stepSize| ==> cfg.stepSize[i] > 0.0
  }

  /** The jog loop's variables: the three counters, the step index and the
      current step, the caller's position map, and the messages sent. */
  datatype JogState = JogState(
    x: real, y: real, z: real,
    index: int, step: real,
    position: map<string, real>,
    events: seq<BusEvent>)

  function Counter(s: JogState, a: Axis): real
  {
    match a
    case AxisX => s.x
    case AxisY => s.y
    case AxisZ => s.z
  }

  /** The step is always the list entry the index names. */
  predicate StepValid(cfg: JogConfig, s: JogState)
  {
    WellFormed(cfg) && 0 <= s.index <= cfg.maxIndex && s.step == cfg.stepSize[s.index]
  }

  function JogStart(cfg: JogConfig, position: map<string, real>): (s: JogState)
    requires WellFormed(cfg)
    ensures StepValid(cfg, s)
  {
    JogState(0.0, 0.0, 0.0, cfg.startIndex, cfg.stepSize[cfg.startIndex], position, [])
  }

  /** Enter saves the position, `q` quits the script, and the status line
      printed after every other key raises `KeyError` when the position map
      lacks one of the three axis entries. */
  datatype JogStop = SavePosition | Cancel | MissingKey

  datatype JogEnd = JogEnd(state: JogState, stop: Option<JogStop>)

  /** The move for one jog of `step` at `velocity` along the axis. */
  function JogMove(a: Axis, step: real, velocity: real): MoveGroups
    requires velocity != 0.0
  {
    MoveSingleAxis(AxisNode(a), step, velocity).value
  }

  /** One jog: the counter moves by the step, the position entry is set to
      the new counter, and the move is run. */
  function JogAlong(s: JogState, a: Axis, forward: bool): JogState
  {
    var c := if forward then Counter(s, a) + s.step else Counter(s, a) - s.step;
    var v := if forward then AxisSpeed(a) else -AxisSpeed(a);
    var moved := s.(position := s.position[AxisKey(a) := c],
                    events := s.events + [RunGroups(JogMove(a, s.step, v))]);
    match a
    case AxisX => moved.(x := c)
    case AxisY => moved.(y := c)
    case AxisZ => moved.(z := c)
  }

  /** The position map has the three entries the status line prints. */
  predicate HasAxisEntries(position: map<string, real>)
  {
    "gantry_x" in position && "gantry_y" in position && "head_l" in position
  }

  /** The end of a pass that printed the status line. */
  function Printed(s: JogState): JogEnd
  {
    JogEnd(s, if HasAxisEntries(s.position) then None else Some(MissingKey))
  }

  /** One pass of the loop, for one key. The index is clamped into
      `[0, maxIndex]`, so the step is always an entry of the list. */
  function JogKey(cfg: JogConfig, onlyZ: bool, s: JogState, key: char): (r: JogEnd)
    requires StepValid(cfg, s)
    ensures StepValid(cfg, r.state)
  {
    match KeyAction(onlyZ, key)
    case Jog(a, forward) => Printed(JogAlong(s, a, forward))
    case Quit => JogEnd(s, Some(Cancel))
    case StepUp =>
      var i := if s.index + 1 >= cfg.maxIndex then cfg.maxIndex else s.index + 1;
      Printed(s.(index := i, step := cfg.stepSize[i]))
    case StepDown =>
      var i := if s.index - 1 <= 0 then 0 else s.index - 1;
      Printed(s.(index := i, step := cfg.stepSize[i]))
    case Save => JogEnd(s, Some(SavePosition))
    case Ignore => Printed(s)
  }

  /** The loop over the keys typed, until Enter or `q`; when the keys run
      out first the loop is still waiting (`stop` is None). */
  function JogRun(cfg: JogConfig, onlyZ: bool, s: JogState, keys: seq<char>): (r: JogEnd)
    requires StepValid(cfg, s)
    ensures StepValid(cfg, r.state)
    decreases |keys|
  {
    if |keys| == 0 then JogEnd(s, None)
    else
      var r := JogKey(cfg, onlyZ, s, keys[0]);
      if r.stop.Some? then r else JogRun(cfg, onlyZ, r.state, keys[1..])
  }

  /** The caller's position dict, written in place by the jog loop. */
  class PositionMap {
    var entries: map<string, real>

    constructor(entries: map<string, real>)
      ensures this.entries == entries
    {
      this.entries := entries;
    }
  }

  /** How `_jog_axis` ends: Enter returns the position map, `q` quits the
      script, the status line raises `KeyError`, or with no more keys it is
      still waiting. */
  datatype JogOutcome = Saved(position: map<string, real>) | Cancelled | KeyErrorRaised | AwaitingInput

  function OutcomeOf(e: JogEnd): JogOutcome
  {
    match e.stop
    case Some(SavePosition) => Saved(e.state.position)
    case Some(Cancel) => Cancelled
    case Some(MissingKey) => KeyErrorRaised
    case None => AwaitingInput
  }

  /** The body of one movement branch of `_jog_axis`: the axis counter moves
      by the step, the position entry follows it, and the move is run. */
  method JogAlongPass(messenger: Messenger, position: PositionMap, axis: Axis, forward: bool,
                      xPos: real, yPos: real, zPos: real, step: real,
                      ghost base: seq<BusEvent>, ghost sent: seq<BusEvent>)
      returns (x': real, y': real, z': real, ghost sent': seq<BusEvent>)
    requires step > 0.0 && messenger.events == base + sent
    modifies messenger, position
    ensures forall index: int ::
      JogAlong(JogState(xPos, yPos, zPos, index, step, old(position.entries), sent), axis, forward)
      == JogState(x', y', z', index, step, position.entries, sent')
    ensures messenger.events == base + sent'
  {
    x', y', z' := xPos, yPos, zPos;
    var pos := match axis case AxisX => xPos case AxisY => yPos case AxisZ => zPos;
    pos := if forward then pos + step else pos - step;
    match axis {
      case AxisX => x' := pos;
      case AxisY => y' := pos;
      case AxisZ => z' := pos;
    }
    position.entries := position.entries[AxisKey(axis) := pos];
    var move := MoveSingleAxis(AxisNode(axis), step, if forward then AxisSpeed(axis) else -AxisSpeed(axis)).value;
    messenger.Run(move);
    sent' := sent + [RunGroups(move)];
  }

  /** One pass of `_jog_axis`'s loop body, for the key `input`. */
  method JogPass(cfg: JogConfig, messenger: Messenger, position: PositionMap, onlyZ: bool, input: char,
                 xPos: real, yPos: real, zPos: real, stepLengthIndex: int, step: real,
                 ghost base: seq<BusEvent>, ghost sent: seq<BusEvent>)
      returns (x': real, y': real, z': real, index': int, step': real, stop: Option<JogStop>,
               ghost sent': seq<BusEvent>)
    requires StepValid(cfg, JogState(xPos, yPos, zPos, stepLengthIndex, step, position.entries, sent))
    requires messenger.events == base + sent
    modifies messenger, position
    ensures JogKey(cfg, onlyZ, JogState(xPos, yPos, zPos, stepLengthIndex, step, old(position.entries), sent), input)
      == JogEnd(JogState(x', y', z', index', step', position.entries, sent'), stop)
    ensures messenger.events == base + sent'
  {
    ghost var s := JogState(xPos, yPos, zPos, stepLengthIndex, step, position.entries, sent);
    x', y', z', index', step', stop, sent' := xPos, yPos, zPos, stepLengthIndex, step, None, sent;
    match KeyAction(onlyZ, input) {
      case Jog(axis, forward) =>
        x', y', z', sent' := JogAlongPass(messenger, position, axis, forward, xPos, yPos, zPos, step, base, sent);
      case Quit =>
        stop := Some(Cancel);
      case StepUp =>
        index' := stepLengthIndex + 1;
        if index' >= cfg.maxIndex {
          index' := cfg.maxIndex;
        }
        step' := cfg.stepSize[index'];
      case StepDown =>
        index' := stepLengthIndex - 1;
        if index' <= 0 {
          index' := 0;
        }
        step' := cfg.stepSize[index'];
      case Save =>
        stop := Some(SavePosition);
      case Ignore =>
    }
    if stop.None? && !HasAxisEntries(position.entries) {
      // the status line after the key reads all three entries
      stop := Some(MissingKey);
    }
  }

  /** `_jog_axis(messenger, position, only_z)` reading `keys` one at a time. */
  method JogAxis(cfg: JogConfig, messenger: Messenger, position: PositionMap, onlyZ: bool, keys: seq<char>)
      returns (outcome: JogOutcome)
    requires WellFormed(cfg)
    modifies messenger, position
    ensures var e := JogRun(cfg, onlyZ, JogStart(cfg, old(position.entries)), keys);
      && position.entries == e.state.position
      && messenger.events == old(messenger.events) + e.state.events
      && outcome == OutcomeOf(e)
  {
    var stepLengthIndex: int := cfg.startIndex;
    var step := cfg.stepSize[stepLengthIndex];
    var xPos, yPos, zPos := 0.0, 0.0, 0.0;
    ghost var start := JogStart(cfg, position.entries);
    ghost var base := messenger.events;
    ghost var sent: seq<BusEvent> := [];
    var i := 0;
    while i < |keys|
      invariant 0 <= i <= |keys|
      invariant StepValid(cfg, JogState(xPos, yPos, zPos, stepLengthIndex, step, position.entries, sent))
      invariant messenger.events == base + sent
      invariant JogRun(cfg, onlyZ, start, keys)
        == JogRun(cfg, onlyZ, JogState(xPos, yPos, zPos, stepLengthIndex, step, position.entries, sent), keys[i..])
    {
      assert keys[i..][0] == keys[i] && keys[i..][1..] == keys[i + 1..];
      var stop;
      xPos, yPos, zPos, stepLengthIndex, step, stop, sent :=
        JogPass(cfg, messenger, position, onlyZ, keys[i], xPos, yPos, zPos, stepLengthIndex, step, base, sent);
      match stop {
        case Some(SavePosition) => return Saved(position.entries);
        case Some(Cancel) => return Cancelled;
        case Some(MissingKey) => return KeyErrorRaised;
        case None =>
      }
      i := i + 1;
    }
    return AwaitingInput;
  }

  // ---------------------------------------------------------------------
  // What the jog loop keeps true
  // ---------------------------------------------------------------------

  /** The signed travel a message commands of `node`: velocity times
      duration of a one-step single-axis plan for that node, else nothing. */
  function CommandedTravel(e: BusEvent, node: NodeId): real
  {
    match e
    case RunGroups(plan) =>
      if |plan| == 1 && |plan[0]| == 1 && node in plan[0][0] && plan[0][0][node].SingleAxisStep?
      then plan[0][0][node].velocityMmSec * plan[0][0][node].durationSec
      else 0.0
    case WriteMotorCurrent(_, _) => 0.0
  }

  /** The total travel the messages command of `node`. */
  function TotalTravel(events: seq<BusEvent>, node: NodeId): real
  {
    if |events| == 0 then 0.0
    else TotalTravel(events[..|events| - 1], node) + CommandedTravel(events[|events| - 1], node)
  }

  /** Some message moves `node`. */
  predicate Moves(events: seq<BusEvent>, node: NodeId)
  {
    |events| > 0 && (Moves(events[..|events| - 1], node) || CommandedTravel(events[|events| - 1], node) != 0.0)
  }

  lemma TravelAppend(events: seq<BusEvent>, e: BusEvent, node: NodeId)
    ensures TotalTravel(events + [e], node) == TotalTravel(events, node) + CommandedTravel(e, node)
    ensures Moves(events + [e], node) <==> Moves(events, node) || CommandedTravel(e, node) != 0.0
  {
    assert (events + [e])[..|events|] == events;
  }

  /** A jog of one step at `velocity` along an axis commands exactly the
      step, forward or back, of that axis's node and nothing of the others. */
  lemma JogMoveTravel(a: Axis, step: real, velocity: real, other: NodeId)
    requires step > 0.0 && velocity != 0.0
    ensures CommandedTravel(RunGroups(JogMove(a, step, velocity)), AxisNode(a))
      == (if velocity > 0.0 then step else -step)
    ensures other != AxisNode(a) ==> CommandedTravel(RunGroups(JogMove(a, step, velocity)), other) == 0.0
  {
    SignedTravel(step, velocity);
  }

  /** One axis of the position map: once the axis has been jogged its entry
      is the loop's counter; before that it is the caller's entry. */
  predicate AxisTracks(s: JogState, p0: map<string, real>, a: Axis)
  {
    if Moves(s.events, AxisNode(a)) then
      AxisKey(a) in s.position && s.position[AxisKey(a)] == Counter(s, a)
    else
      (AxisKey(a) in s.position <==> AxisKey(a) in p0)
      && (AxisKey(a) in p0 ==> s.position[AxisKey(a)] == p0[AxisKey(a)])
  }

  predicate IsAxisKey(k: string)
  {
    k == "gantry_x" || k == "gantry_y" || k == "head_l"
  }

  /** What every pass of the loop keeps:
      - each counter is the total travel commanded of its axis;
      - each axis entry of the position map is that counter once the axis
        has moved, and the caller's entry before;
      - entries for other keys are the caller's;
      - with `only_z`, the gantry is never moved. */
  ghost predicate JogInvariant(s: JogState, p0: map<string, real>, onlyZ: bool)
  {
    && (forall a: Axis :: Counter(s, a) == TotalTravel(s.events, AxisNode(a)))
    && (forall a: Axis :: AxisTracks(s, p0, a))
    && (forall k :: !IsAxisKey(k) ==> (k in s.position <==> k in p0))
    && (forall k :: !IsAxisKey(k) && k in p0 ==> s.position[k] == p0[k])
    && (onlyZ ==> !Moves(s.events, GantryX) && !Moves(s.events, GantryY))
  }

  lemma JogStartInvariant(cfg: JogConfig, p0: map<string, real>, onlyZ: bool)
    requires WellFormed(cfg)
    ensures JogInvariant(JogStart(cfg, p0), p0, onlyZ)
  {
  }

  /** After a jog along `a`, axis `b`'s counter is still the travel
      commanded of it and its position entry still tracks it. */
  lemma JogAlongTracksAxis(cfg: JogConfig, onlyZ: bool, s: JogState, a: Axis, forward: bool,
                           p0: map<string, real>, b: Axis)
    requires StepValid(cfg, s) && JogInvariant(s, p0, onlyZ)
    ensures var r := JogAlong(s, a, forward);
      Counter(r, b) == TotalTravel(r.events, AxisNode(b)) && AxisTracks(r, p0, b)
  {
    var r := JogAlong(s, a, forward);
    var v := if forward then AxisSpeed(a) else -AxisSpeed(a);
    var e := RunGroups(JogMove(a, s.step, v));
    assert r.events == s.events + [e];
    JogMoveTravel(a, s.step, v, AxisNode(b));
    TravelAppend(s.events, e, AxisNode(b));
    assert AxisTracks(s, p0, b);
    assert Counter(s, b) == TotalTravel(s.events, AxisNode(b));
    if b != a {
      assert AxisNode(b) != AxisNode(a) && AxisKey(b) != AxisKey(a);
      assert Counter(r, b) == Counter(s, b);
    }
  }

  /** A jog along one axis keeps the invariant. */
  lemma JogAlongKeepsInvariant(cfg: JogConfig, onlyZ: bool, s: JogState, a: Axis, forward: bool, p0: map<string, real>)
    requires StepValid(cfg, s) && JogInvariant(s, p0, onlyZ)
    requires onlyZ ==> a == AxisZ
    ensures JogInvariant(JogAlong(s, a, forward), p0, onlyZ)
  {
    var r := JogAlong(s, a, forward);
    forall b: Axis
      ensures Counter(r, b) == TotalTravel(r.events, AxisNode(b))
      ensures AxisTracks(r, p0, b)
    {
      JogAlongTracksAxis(cfg, onlyZ, s, a, forward, p0, b);
    }
    if onlyZ {
      var v := if forward then AxisSpeed(a) else -AxisSpeed(a);
      var e := RunGroups(JogMove(a, s.step, v));
      assert r.events == s.events + [e];
      JogMoveTravel(a, s.step, v, GantryX);
      JogMoveTravel(a, s.step, v, GantryY);
      TravelAppend(s.events, e, GantryX);
      TravelAppend(s.events, e, GantryY);
    }
  }

  lemma JogKeyKeepsInvariant(cfg: JogConfig, onlyZ: bool, s: JogState, key: char, p0: map<string, real>)
    requires StepValid(cfg, s) && JogInvariant(s, p0, onlyZ)
    ensures JogInvariant(JogKey(cfg, onlyZ, s, key).state, p0, onlyZ)
  {
    match KeyAction(onlyZ, key)
    case Jog(a, forward) =>
      OnlyZKeysMoveOnlyZ(key);
      JogAlongKeepsInvariant(cfg, onlyZ, s, a, forward, p0);
    case _ =>
      var r := JogKey(cfg, onlyZ, s, key).state;
      assert r.position == s.position && r.events == s.events;
      forall a: Axis
        ensures Counter(r, a) == TotalTravel(r.events, AxisNode(a))
        ensures AxisTracks(r, p0, a)
      {
        assert Counter(r, a) == Counter(s, a);
        assert AxisTracks(s, p0, a);
      }
  }

  lemma {:induction false} JogRunKeepsInvariant(cfg: JogConfig, onlyZ: bool, s: JogState, keys: seq<char>, p0: map<string, real>)
    requires StepValid(cfg, s) && JogInvariant(s, p0, onlyZ)
    ensures JogInvariant(JogRun(cfg, onlyZ, s, keys).state, p0, onlyZ)
    decreases |keys|
  {
    if |keys| > 0 {
      var r := JogKey(cfg, onlyZ, s, keys[0]);
      JogKeyKeepsInvariant(cfg, onlyZ, s, keys[0], p0);
      if r.stop.None? {
        JogRunKeepsInvariant(cfg, onlyZ, r.state, keys[1..], p0);
      }
    }
  }

  /** Whatever is typed, every axis entry of the position Enter returns is,
      once that axis has been jogged, the total travel commanded of it; the
      caller's other entries are untouched. */
  lemma SavedPositionIsCommandedTravel(cfg: JogConfig, onlyZ: bool, p0: map<string, real>, keys: seq<char>, a: Axis)
    requires WellFormed(cfg)
    ensures var e := JogRun(cfg, onlyZ, JogStart(cfg, p0), keys);
      && (Moves(e.state.events, AxisNode(a)) ==>
            AxisKey(a) in e.state.position
            && e.state.position[AxisKey(a)] == TotalTravel(e.state.events, AxisNode(a)))
      && (!Moves(e.state.events, AxisNode(a)) ==>
            (AxisKey(a) in e.state.position <==> AxisKey(a) in p0))
      && (forall k :: !IsAxisKey(k) ==> (k in e.state.position <==> k in p0))
  {
    JogStartInvariant(cfg, p0, onlyZ);
    JogRunKeepsInvariant(cfg, onlyZ, JogStart(cfg, p0), keys, p0);
    var e := JogRun(cfg, onlyZ, JogStart(cfg, p0), keys);
    assert AxisTracks(e.state, p0, a);
    assert Counter(e.state, a) == TotalTravel(e.state.events, AxisNode(a));
  }

  lemma InvariantKeepsAxisEntries(s: JogState, p0: map<string, real>, onlyZ: bool)
    requires JogInvariant(s, p0, onlyZ) && HasAxisEntries(p0)
    ensures HasAxisEntries(s.position)
  {
    assert AxisTracks(s, p0, AxisX) && AxisTracks(s, p0, AxisY) && AxisTracks(s, p0, AxisZ);
  }

  lemma {:induction false} NoMissingKeyFrom(cfg: JogConfig, onlyZ: bool, s: JogState, keys: seq<char>,
                                            p0: map<string, real>)
    requires StepValid(cfg, s) && JogInvariant(s, p0, onlyZ) && HasAxisEntries(p0)
    ensures JogRun(cfg, onlyZ, s, keys).stop != Some(MissingKey)
    decreases |keys|
  {
    if |keys| > 0 {
      var r := JogKey(cfg, onlyZ, s, keys[0]);
      JogKeyKeepsInvariant(cfg, onlyZ, s, keys[0], p0);
      InvariantKeepsAxisEntries(r.state, p0, onlyZ);
      if r.stop.None? {
        NoMissingKeyFrom(cfg, onlyZ, r.state, keys[1..], p0);
      }
    }
  }

  /** The status line raises `KeyError` exactly for a caller's map without
      all three axis entries: given all three, no key sequence raises; given
      fewer, the first key that neither moves, saves nor quits raises. */
  lemma StatusLineNeedsAxisEntries(cfg: JogConfig, onlyZ: bool, p0: map<string, real>, keys: seq<char>)
    requires WellFormed(cfg)
    ensures HasAxisEntries(p0) ==> OutcomeOf(JogRun(cfg, onlyZ, JogStart(cfg, p0), keys)) != KeyErrorRaised
    ensures !HasAxisEntries(p0) && |keys| > 0 && KeyAction(onlyZ, keys[0]) in {StepUp, StepDown, Ignore} ==>
      OutcomeOf(JogRun(cfg, onlyZ, JogStart(cfg, p0), keys)) == KeyErrorRaised
  {
    if HasAxisEntries(p0) {
      JogStartInvariant(cfg, p0, onlyZ);
      NoMissingKeyFrom(cfg, onlyZ, JogStart(cfg, p0), keys, p0);
    }
  }

  /** With `only_z` the gantry is never driven and the caller's gantry
      entries come back untouched. */
  lemma OnlyZLeavesGantry(cfg: JogConfig, p0: map<string, real>, keys: seq<char>)
    requires WellFormed(cfg)
    ensures var e := JogRun(cfg, true, JogStart(cfg, p0), keys);
      && !Moves(e.state.events, GantryX) && !Moves(e.state.events, GantryY)
      && ("gantry_x" in e.state.position <==> "gantry_x" in p0)
      && ("gantry_x" in p0 ==> e.state.position["gantry_x"] == p0["gantry_x"])
      && ("gantry_y" in e.state.position <==> "gantry_y" in p0)
      && ("gantry_y" in p0 ==> e.state.position["gantry_y"] == p0["gantry_y"])
  {
    JogStartInvariant(cfg, p0, true);
    JogRunKeepsInvariant(cfg, true, JogStart(cfg, p0), keys, p0);
    var e := JogRun(cfg, true, JogStart(cfg, p0), keys);
    assert AxisTracks(e.state, p0, AxisX) && AxisTracks(e.state, p0, AxisY);
  }
}

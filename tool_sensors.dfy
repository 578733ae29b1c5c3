/** Motion limited by tool sensors: the synchronised pass step built for a
    probe, the non-blocking drain of a capture queue, and the order in which
    the three probe procedures talk to the bus. The messenger, the sensor
    driver and scheduler and the move-group runner are foreign; every
    request made to them is recorded, in order, by a `Bus`. */
module ToolSensors {
  import opened Common
  import opened Motion

  datatype SensorId = S0 | S1

  /** The errors the procedures can raise. */
  datatype SensorError =
    | IndexError      // no primary mover can be chosen
    | KeyError        // a mover without a distance or speed, or a missing result
    | ZeroDivisionError
    | RuntimeError    // the threshold was not set

  /** The arguments `_build_pass_step` hands to `create_step`, whose body is
      not part of this model. */
  datatype PassStep = PassStep(
    distance: map<NodeId, real>,
    velocity: map<NodeId, real>,
    acceleration: map<NodeId, real>,
    duration: real,
    presentNodes: seq<NodeId>,
    stopCondition: MoveStopCondition)

  /** `copysign(1.0, x)` on exact reals (zero counts as positive). */
  function CopySignOne(x: real): (r: real)
    ensures r == 1.0 || r == -1.0
    ensures r == 1.0 <==> x >= 0.0
    ensures r * x == AbsReal(x)
  {
    if x < 0.0 then -1.0 else 1.0
  }

  predicate IsPipette(n: NodeId)
  {
    n == PipetteLeft || n == PipetteRight
  }

  predicate IsHead(n: NodeId)
  {
    n == HeadL || n == HeadR
  }

  /** Whether a primary mover can be chosen: the first head axis when a
      pipette moves, the first mover otherwise. */
  predicate HasPrimaryMover(movers: seq<NodeId>)
  {
    if PipetteLeft in movers || PipetteRight in movers
    then exists i :: 0 <= i < |movers| && IsHead(movers[i])
    else |movers| > 0
  }

  /** `_build_pass_step`. */
  function BuildPassStep(movers: seq<NodeId>, distance: map<NodeId, real>, speed: map<NodeId, real>)
    : (r: Result<PassStep, SensorError>)
    ensures !HasPrimaryMover(movers) ==> r == Failure(IndexError)
    ensures HasPrimaryMover(movers) && !(forall ax :: ax in movers ==> ax in distance && ax in speed) ==>
      r == Failure(KeyError)
    ensures r.Success? <==>
      && HasPrimaryMover(movers)
      && (forall ax :: ax in movers ==> ax in distance && ax in speed)
      && speed[movers[0]] != 0.0
    ensures r.Success? ==>
      && (forall ax :: ax in r.value.distance <==> ax in movers)
      && (forall ax :: ax in r.value.velocity <==> ax in movers)
      && (forall ax :: ax in movers ==>
            r.value.distance[ax] == AbsReal(distance[ax])
            && r.value.velocity[ax] == SignedSpeed(speed[ax], distance[ax]))
      && r.value.acceleration == map[]
      && r.value.duration == Duration(distance[movers[0]], speed[movers[0]])
      && r.value.presentNodes == movers
      && r.value.stopCondition == SyncLine
  {
    if !HasPrimaryMover(movers) then Failure(IndexError)
    else if !(forall ax :: ax in movers ==> ax in distance) then Failure(KeyError)
    else if !(forall ax :: ax in movers ==> ax in speed) then Failure(KeyError)
    else if speed[movers[0]] == 0.0 then Failure(ZeroDivisionError)
    else Success(SyncLineStep(movers, distance, speed))
  }

  /** The step `_build_pass_step` returns once every check has passed. */
  function SyncLineStep(movers: seq<NodeId>, distance: map<NodeId, real>, speed: map<NodeId, real>)
    : (p: PassStep)
    requires |movers| > 0 && (forall ax :: ax in movers ==> ax in distance && ax in speed)
    requires speed[movers[0]] != 0.0
    ensures forall ax :: ax in p.distance <==> ax in movers
    ensures forall ax :: ax in p.velocity <==> ax in movers
    ensures forall ax :: ax in movers ==>
      p.distance[ax] == AbsReal(distance[ax]) && p.velocity[ax] == SignedSpeed(speed[ax], distance[ax])
    ensures p.acceleration == map[]
    ensures p.duration == Duration(distance[movers[0]], speed[movers[0]])
    ensures p.presentNodes == movers && p.stopCondition == SyncLine
  {
    PassStep(
      distance := DistanceMap(movers, distance),
      velocity := VelocityMap(movers, distance, speed),
      acceleration := map[],
      duration := Duration(distance[movers[0]], speed[movers[0]]),
      presentNodes := movers,
      stopCondition := SyncLine)
  }

  /** `{ax: abs(distance[ax]) for ax in movers}`. */
  function DistanceMap(movers: seq<NodeId>, distance: map<NodeId, real>): (m: map<NodeId, real>)
    requires forall ax :: ax in movers ==> ax in distance
    ensures forall ax :: ax in m <==> ax in movers
    ensures forall ax :: ax in movers ==> m[ax] == AbsReal(distance[ax])
  {
    map ax | ax in movers :: AbsReal(distance[ax])
  }

  /** `speed * copysign(1.0, distance)`: the speed carrying the direction of
      the distance. */
  function SignedSpeed(s: real, d: real): (v: real)
    ensures d >= 0.0 ==> v == s
    ensures d < 0.0 ==> v == -s
  {
    if d < 0.0 then -s else s
  }

  /** `{ax: speed[ax] * copysign(1.0, distance[ax]) for ax in movers}`. */
  function VelocityMap(movers: seq<NodeId>, distance: map<NodeId, real>, speed: map<NodeId, real>)
    : (m: map<NodeId, real>)
    requires forall ax :: ax in movers ==> ax in distance && ax in speed
    ensures forall ax :: ax in m <==> ax in movers
    ensures forall ax :: ax in movers ==> m[ax] == SignedSpeed(speed[ax], distance[ax])
  {
    map ax | ax in movers :: SignedSpeed(speed[ax], distance[ax])
  }

  /** The signed speed has the magnitude of the speed, and moving the
      absolute distance at it covers the signed distance. */
  lemma SignedSpeedCoversDistance(s: real, d: real)
    ensures AbsReal(SignedSpeed(s, d)) == AbsReal(s)
    ensures SignedSpeed(s, d) * AbsReal(d) == s * d
    ensures SignedSpeed(s, d) == s * CopySignOne(d)
  {
    if d < 0.0 {
      assert (-s) * (-d) == s * d;
    }
  }

  /** The duration is taken from the first mover even when it is a pipette:
      the head chosen as primary mover only decides whether the step can be
      built. */
  lemma DurationFromFirstMover(head: NodeId, tool: NodeId, distance: map<NodeId, real>, speed: map<NodeId, real>)
    requires IsHead(head) && IsPipette(tool)
    requires head in distance && head in speed && tool in distance && tool in speed
    requires speed[tool] != 0.0
    ensures BuildPassStep([tool, head], distance, speed).Success?
    ensures BuildPassStep([tool, head], distance, speed).value.duration == Duration(distance[tool], speed[tool])
  {
    var movers := [tool, head];
    assert HasPrimaryMover(movers) by {
      assert IsHead(movers[1]);
    }
    assert forall ax :: ax in movers ==> ax in distance && ax in speed;
    var r := BuildPassStep(movers, distance, speed);
    assert r.Success? && r.value.duration == Duration(distance[tool], speed[tool]);
  }

  /** A pipette that moves without any head axis cannot be given a step. */
  lemma PipetteWithoutHeadFails(movers: seq<NodeId>, distance: map<NodeId, real>, speed: map<NodeId, real>)
    requires PipetteLeft in movers || PipetteRight in movers
    requires forall i :: 0 <= i < |movers| ==> !IsHead(movers[i])
    ensures BuildPassStep(movers, distance, speed) == Failure(IndexError)
  {
  }

  /** The sensor capture queue (`asyncio.Queue`), read without blocking. */
  class CaptureQueue {
    var items: seq<real>

    constructor (items: seq<real>)
      ensures this.items == items
    {
      this.items := items;
    }

    /** `get_nowait`: the oldest sample, or `QueueEmpty` (here `None`). */
    method GetNowait() returns (r: Option<real>)
      modifies this
      ensures old(items) == [] ==> r == None && items == []
      ensures old(items) != [] ==> r == Some(old(items)[0]) && items == old(items)[1..]
    {
      if items == [] {
        return None;
      }
      r := Some(items[0]);
      items := items[1..];
    }
  }

  /** `list(_drain())`: every queued sample, oldest first, leaving the
      queue empty. */
  method Drain(q: CaptureQueue) returns (out: seq<real>)
    modifies q
    ensures out == old(q.items)
    ensures q.items == []
  {
    out := [];
    var done := false;
    while !done
      invariant out + q.items == old(q.items)
      invariant done ==> q.items == []
      decreases |q.items| + (if done then 0 else 1)
    {
      var sample := q.GetNowait();
      match sample {
        case None =>
          done := true;
        case Some(v) =>
          out := out + [v];
      }
    }
  }

  /** `runner.run` result per node: position, encoder position and two flags. */
  datatype NodeResult = NodeResult(position: real, encoderPosition: real, positionOk: bool, encoderOk: bool)

  /** One request made to the bus, the sensor services or the move runner. */
  datatype BusEvent =
    | SendStopThreshold(node: NodeId, sensor: SensorId, thresholdPascals: real)
    | BindOutputEnter(node: NodeId, sensor: SensorId)
    | BindOutputExit
    | SendThreshold(node: NodeId, sensor: SensorId, thresholdPf: real)
    | BindSyncEnter(node: NodeId, sensor: SensorId, doLog: bool)
    | BindSyncExit
    | RunGroups(plan: seq<seq<PassStep>>)
    | Prep(plan: seq<seq<PassStep>>)
    | CaptureEnter(node: NodeId, sensor: SensorId)
    | Execute
    | CaptureExit

  /** The messenger with the sensor services and move runner behind it.
      What they answer is fixed in advance by the fields. */
  class Bus {
    var events: seq<BusEvent>
    /** What `send_threshold` echoes back (`None` when nothing came). */
    const thresholdEcho: Option<real>
    /** What `runner.run` returns. */
    const runResult: map<NodeId, NodeResult>
    /** The samples the capture scope collects while the move executes. */
    const samples: seq<real>

    constructor (thresholdEcho: Option<real>, runResult: map<NodeId, NodeResult>, samples: seq<real>)
      ensures events == [] && this.thresholdEcho == thresholdEcho
      ensures this.runResult == runResult && this.samples == samples
    {
      events := [];
      this.thresholdEcho := thresholdEcho;
      this.runResult := runResult;
      this.samples := samples;
    }

    method Record(e: BusEvent)
      modifies this`events
      ensures events == old(events) + [e]
    {
      events := events + [e];
    }
  }

  /** The requests `liquid_probe` makes once its step is built. */
  function LiquidProbeEvents(tool: NodeId, sensor: SensorId, thresholdPascals: real, step: PassStep): seq<BusEvent>
  {
    [SendStopThreshold(tool, sensor, thresholdPascals), BindOutputEnter(tool, sensor),
     RunGroups([[step]]), BindOutputExit]
  }

  /** `liquid_probe`: the mount and the tool move together; the move runs
      only inside the pressure sensor's output binding, which is opened
      after the stop threshold is sent. */
  method LiquidProbe(bus: Bus, tool: NodeId, mount: NodeId, pipetteDistance: real, pipetteSpeed: real,
                     mountDistance: real, mountSpeed: real, sensor: SensorId, thresholdPascals: real)
    returns (r: Result<map<NodeId, NodeResult>, SensorError>)
    modifies bus`events
    ensures var step := BuildPassStep([mount, tool], map[mount := mountDistance, tool := pipetteDistance],
                                       map[mount := mountSpeed, tool := pipetteSpeed]);
      (step.Failure? ==> r == Failure(step.error) && bus.events == old(bus.events))
      && (step.Success? ==>
            r == Success(bus.runResult)
            && bus.events == old(bus.events) + LiquidProbeEvents(tool, sensor, thresholdPascals, step.value))
  {
    var passGroup := BuildPassStep([mount, tool], map[mount := mountDistance, tool := pipetteDistance],
                                   map[mount := mountSpeed, tool := pipetteSpeed]);
    if passGroup.Failure? {
      return Failure(passGroup.error);
    }
    bus.Record(SendStopThreshold(tool, sensor, thresholdPascals));
    bus.Record(BindOutputEnter(tool, sensor));
    bus.Record(RunGroups([[passGroup.value]]));
    var result := bus.runResult;
    bus.Record(BindOutputExit);
    r := Success(result);
  }

  /** The requests `capacitive_probe` makes after the threshold was echoed. */
  function CapacitiveProbeEvents(tool: NodeId, sensor: SensorId, thresholdPf: real, doLog: bool, step: PassStep)
    : seq<BusEvent>
  {
    [SendThreshold(tool, sensor, thresholdPf), BindSyncEnter(tool, sensor, doLog),
     RunGroups([[step]]), BindSyncExit]
  }

  /** `capacitive_probe`: raises `RuntimeError` when no threshold is echoed;
      otherwise moves inside the sync binding and returns the mover's
      position and encoder position. */
  method CapacitiveProbe(bus: Bus, tool: NodeId, mover: NodeId, distance: real, speed: real,
                         sensor: SensorId, thresholdPf: real, doLog: bool)
    returns (r: Result<(real, real), SensorError>)
    modifies bus`events
    ensures bus.thresholdEcho.None? ==>
      r == Failure(RuntimeError) && bus.events == old(bus.events) + [SendThreshold(tool, sensor, thresholdPf)]
    ensures var step := BuildPassStep([mover], map[mover := distance], map[mover := speed]);
      bus.thresholdEcho.Some? && step.Failure? ==>
        r == Failure(step.error) && bus.events == old(bus.events) + [SendThreshold(tool, sensor, thresholdPf)]
    ensures var step := BuildPassStep([mover], map[mover := distance], map[mover := speed]);
      bus.thresholdEcho.Some? && step.Success? ==>
        bus.events == old(bus.events) + CapacitiveProbeEvents(tool, sensor, thresholdPf, doLog, step.value)
        && (mover in bus.runResult ==>
              r == Success((bus.runResult[mover].position, bus.runResult[mover].encoderPosition)))
        && (mover !in bus.runResult ==> r == Failure(KeyError))
  {
    bus.Record(SendThreshold(tool, sensor, thresholdPf));
    if bus.thresholdEcho.None? {
      return Failure(RuntimeError);
    }
    var passGroup := BuildPassStep([mover], map[mover := distance], map[mover := speed]);
    if passGroup.Failure? {
      return Failure(passGroup.error);
    }
    bus.Record(BindSyncEnter(tool, sensor, doLog));
    bus.Record(RunGroups([[passGroup.value]]));
    var position := bus.runResult;
    // leaving the `async with` block, by return or by raising
    bus.Record(BindSyncExit);
    if mover !in position {
      return Failure(KeyError);
    }
    r := Success((position[mover].position, position[mover].encoderPosition));
  }

  function CapacitivePassEvents(tool: NodeId, sensor: SensorId, step: PassStep): seq<BusEvent>
  {
    [Prep([[step]]), CaptureEnter(tool, sensor), Execute, CaptureExit]
  }

  /** `capacitive_pass`: prepares the move, executes it inside the capture
      scope and drains what was captured once the scope has closed. */
  method CapacitivePass(bus: Bus, tool: NodeId, mover: NodeId, distance: real, speed: real, sensor: SensorId)
    returns (r: Result<seq<real>, SensorError>)
    modifies bus`events
    ensures var step := BuildPassStep([mover], map[mover := distance], map[mover := speed]);
      (step.Failure? ==> r == Failure(step.error) && bus.events == old(bus.events))
      && (step.Success? ==>
            r == Success(bus.samples)
            && bus.events == old(bus.events) + CapacitivePassEvents(tool, sensor, step.value))
  {
    var passGroup := BuildPassStep([mover], map[mover := distance], map[mover := speed]);
    if passGroup.Failure? {
      return Failure(passGroup.error);
    }
    bus.Record(Prep([[passGroup.value]]));
    bus.Record(CaptureEnter(tool, sensor));
    var outputQueue := new CaptureQueue(bus.samples);
    bus.Record(Execute);
    bus.Record(CaptureExit);
    var drained := Drain(outputQueue);
    r := Success(drained);
  }

  /** `e` happens strictly between the scope's opening `enter` and its
      closing `exit`, each of which happens once. */
  predicate InsideScope(events: seq<BusEvent>, enter: BusEvent, e: BusEvent, exit: BusEvent)
  {
    exists i, j, k :: 0 <= i < j < k < |events|
      && events[i] == enter && events[j] == e && events[k] == exit
      && (forall m :: 0 <= m < |events| && events[m] == enter ==> m == i)
      && (forall m :: 0 <= m < |events| && events[m] == exit ==> m == k)
  }

  /** In `liquid_probe` the threshold is sent before the binding opens and
      the move runs inside it. */
  lemma LiquidProbeOrder(tool: NodeId, sensor: SensorId, thresholdPascals: real, step: PassStep)
    ensures var ev := LiquidProbeEvents(tool, sensor, thresholdPascals, step);
      ev[0] == SendStopThreshold(tool, sensor, thresholdPascals)
      && InsideScope(ev, BindOutputEnter(tool, sensor), RunGroups([[step]]), BindOutputExit)
  {
    var ev := LiquidProbeEvents(tool, sensor, thresholdPascals, step);
    assert ev[1] == BindOutputEnter(tool, sensor) && ev[2] == RunGroups([[step]]) && ev[3] == BindOutputExit;
  }

  /** In `capacitive_probe` the run happens inside the sync binding. */
  lemma CapacitiveProbeOrder(tool: NodeId, sensor: SensorId, thresholdPf: real, doLog: bool, step: PassStep)
    ensures var ev := CapacitiveProbeEvents(tool, sensor, thresholdPf, doLog, step);
      ev[0] == SendThreshold(tool, sensor, thresholdPf)
      && InsideScope(ev, BindSyncEnter(tool, sensor, doLog), RunGroups([[step]]), BindSyncExit)
  {
    var ev := CapacitiveProbeEvents(tool, sensor, thresholdPf, doLog, step);
    assert ev[1] == BindSyncEnter(tool, sensor, doLog) && ev[2] == RunGroups([[step]]) && ev[3] == BindSyncExit;
  }

  /** In `capacitive_pass` the prep comes before the capture scope and the
      execute inside it; the drain reads the queue only after the scope's
      exit, so it sees every captured sample. */
  lemma CapacitivePassOrder(tool: NodeId, sensor: SensorId, step: PassStep)
    ensures var ev := CapacitivePassEvents(tool, sensor, step);
      ev[0] == Prep([[step]])
      && InsideScope(ev, CaptureEnter(tool, sensor), Execute, CaptureExit)
      && ev[|ev| - 1] == CaptureExit
  {
    var ev := CapacitivePassEvents(tool, sensor, step);
    assert ev[1] == CaptureEnter(tool, sensor) && ev[2] == Execute && ev[3] == CaptureExit;
  }
}

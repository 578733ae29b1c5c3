/** State tracking for the OT-3 gripper: jaw state, jaw displacement and the
    attached calibration probe, the selection of the gripper's critical point,
    and the decision whether a freshly detected gripper needs a new object. */
module OT3Gripper {
  import opened Common

  datatype GripperJawState = Unhomed | HomedReady | Gripping | Holding

  datatype GripperProbe = Front | Rear

  datatype CriticalPoint =
    | Mount | Nozzle | Tip | XYCenter | FrontNozzle
    | GripperJawCenter | GripperFrontCalibrationPin | GripperRearCalibrationPin

  /** Which of the four calibration preconditions failed. */
  datatype PinCheckFailure = NoProbe | NotGripping | JawNotClosed | NothingHeld

  /** Which `assert` of the state setters failed. */
  datatype AssertionKind =
    | ProbeAlreadyAttached | NoProbeAttached
    | NegativeDisplacement | DisplacementAboveMax

  datatype GripperError =
    | InvalidMoveError(point: Option<CriticalPoint>)
    | RuntimeError(failure: PinCheckFailure)
    | AssertionError(kind: AssertionKind)

  /** `jaw_sizes_mm`, the `min` and `max` jaw widths. */
  datatype JawSizes = JawSizes(min: real, max: real)

  /** The gripper configuration fields the modelled code reads or compares. */
  datatype GripperConfig = GripperConfig(
    name: string,
    model: string,
    displayName: string,
    baseOffsetFromMount: Point,
    jawCenterOffsetFromBase: Point,
    pinOneOffsetFromBase: Point,
    pinTwoOffsetFromBase: Point,
    jawSizesMm: JawSizes,
    jawForcePerDutyCycle: seq<(real, real)>,
    quirks: seq<string>)

  /** The calibration record; only its offset vector enters the geometry. */
  datatype GripperCalibrationOffset = GripperCalibrationOffset(offset: Point)

  /** What `asdict` produces for one configuration field. */
  datatype ConfigField =
    | TextField(text: string)
    | PointField(point: Point)
    | JawSizesField(sizes: JawSizes)
    | TableField(table: seq<(real, real)>)
    | ListField(items: seq<string>)

  /** The keys of `asdict(config)`, one per configuration field. */
  datatype ConfigKey =
    | NameKey | ModelKey | DisplayNameKey | BaseOffsetFromMountKey
    | JawCenterOffsetFromBaseKey | PinOneOffsetFromBaseKey | PinTwoOffsetFromBaseKey
    | JawSizesMmKey | JawForcePerDutyCycleKey | QuirksKey

  /** `asdict(config).keys()`. */
  const ConfigKeys: seq<ConfigKey> := [
    NameKey, ModelKey, DisplayNameKey, BaseOffsetFromMountKey,
    JawCenterOffsetFromBaseKey, PinOneOffsetFromBaseKey, PinTwoOffsetFromBaseKey,
    JawSizesMmKey, JawForcePerDutyCycleKey, QuirksKey
  ]

  /** `RECONFIG_KEYS`: a change in one of these needs a new gripper object. */
  const ReconfigKeys: set<ConfigKey> := {QuirksKey}

  /** `asdict(config)[key]`. */
  function ConfigFieldOf(c: GripperConfig, key: ConfigKey): ConfigField
  {
    match key
    case NameKey => TextField(c.name)
    case ModelKey => TextField(c.model)
    case DisplayNameKey => TextField(c.displayName)
    case BaseOffsetFromMountKey => PointField(c.baseOffsetFromMount)
    case JawCenterOffsetFromBaseKey => PointField(c.jawCenterOffsetFromBase)
    case PinOneOffsetFromBaseKey => PointField(c.pinOneOffsetFromBase)
    case PinTwoOffsetFromBaseKey => PointField(c.pinTwoOffsetFromBase)
    case JawSizesMmKey => JawSizesField(c.jawSizesMm)
    case JawForcePerDutyCycleKey => TableField(c.jawForcePerDutyCycle)
    case QuirksKey => ListField(c.quirks)
  }

  /** The keys whose values differ between two configurations. */
  ghost function ChangedKeySet(newConfig: GripperConfig, oldConfig: GripperConfig): set<ConfigKey>
  {
    set k | k in ConfigKeys && ConfigFieldOf(newConfig, k) != ConfigFieldOf(oldConfig, k)
  }

  /** The loop of `_reload_gripper` that collects the changed keys. */
  method ChangedConfigKeys(newConfig: GripperConfig, oldConfig: GripperConfig)
    returns (changed: set<ConfigKey>)
    ensures changed == ChangedKeySet(newConfig, oldConfig)
  {
    changed := {};
    var i := 0;
    while i < |ConfigKeys|
      invariant 0 <= i <= |ConfigKeys|
      invariant changed == set k | k in ConfigKeys[..i] && ConfigFieldOf(newConfig, k) != ConfigFieldOf(oldConfig, k)
    {
      var k := ConfigKeys[i];
      if ConfigFieldOf(newConfig, k) != ConfigFieldOf(oldConfig, k) {
        changed := changed + {k};
      }
      assert ConfigKeys[..i + 1] == ConfigKeys[..i] + [k];
      i := i + 1;
    }
    assert ConfigKeys[..i] == ConfigKeys;
  }

  /** Two configurations differ in no key exactly when they are equal, so a
      changed calibration offset alone never looks like a changed key. */
  lemma ChangedKeysEmptyIffEqual(a: GripperConfig, b: GripperConfig)
    ensures ChangedKeySet(a, b) == {} <==> a == b
  {
    if a != b {
      var k :=
        if a.name != b.name then NameKey
        else if a.model != b.model then ModelKey
        else if a.displayName != b.displayName then DisplayNameKey
        else if a.baseOffsetFromMount != b.baseOffsetFromMount then BaseOffsetFromMountKey
        else if a.jawCenterOffsetFromBase != b.jawCenterOffsetFromBase then JawCenterOffsetFromBaseKey
        else if a.pinOneOffsetFromBase != b.pinOneOffsetFromBase then PinOneOffsetFromBaseKey
        else if a.pinTwoOffsetFromBase != b.pinTwoOffsetFromBase then PinTwoOffsetFromBaseKey
        else if a.jawSizesMm != b.jawSizesMm then JawSizesMmKey
        else if a.jawForcePerDutyCycle != b.jawForcePerDutyCycle then JawForcePerDutyCycleKey
        else QuirksKey;
      assert ConfigFieldOf(a, k) != ConfigFieldOf(b, k);
      assert k in ChangedKeySet(a, b);
    }
  }

  /** The changed set meets `RECONFIG_KEYS` exactly when the quirks differ. */
  lemma ReconfigNeededIffQuirksChanged(a: GripperConfig, b: GripperConfig)
    ensures ChangedKeySet(a, b) * ReconfigKeys != {} <==> a.quirks != b.quirks
  {
    if a.quirks != b.quirks {
      assert QuirksKey in ChangedKeySet(a, b) * ReconfigKeys;
    } else {
      assert QuirksKey !in ChangedKeySet(a, b);
      assert ChangedKeySet(a, b) * ReconfigKeys <= ReconfigKeys - {QuirksKey};
    }
  }

  class Gripper {
    var config: GripperConfig
    const name: string
    const model: string
    /** Mount to jaw center at home. */
    const jawCenterOffset: Point
    /** Mount to the front calibration pin at home. */
    const frontCalibrationPinOffset: Point
    /** Mount to the rear calibration pin at home. */
    const rearCalibrationPinOffset: Point
    var calibrationOffset: GripperCalibrationOffset
    const gripperId: string
    var state: GripperJawState
    /** The distance one side of the jaw has travelled from home. */
    var currentJawDisplacement: real
    var attachedProbe: Option<GripperProbe>

    constructor (config: GripperConfig, calOffset: GripperCalibrationOffset, gripperId: string)
      ensures this.config == config && this.calibrationOffset == calOffset
      ensures this.gripperId == gripperId
      ensures name == config.name && model == config.model
      ensures jawCenterOffset == config.jawCenterOffsetFromBase.Plus(config.baseOffsetFromMount)
      ensures frontCalibrationPinOffset == config.pinOneOffsetFromBase.Plus(config.baseOffsetFromMount)
      ensures rearCalibrationPinOffset == config.pinTwoOffsetFromBase.Plus(config.baseOffsetFromMount)
      ensures state == Unhomed && currentJawDisplacement == 0.0 && attachedProbe == None
    {
      this.config := config;
      name := config.name;
      model := config.model;
      var baseOffset := config.baseOffsetFromMount;
      jawCenterOffset := config.jawCenterOffsetFromBase.Plus(baseOffset);
      frontCalibrationPinOffset := config.pinOneOffsetFromBase.Plus(baseOffset);
      rearCalibrationPinOffset := config.pinTwoOffsetFromBase.Plus(baseOffset);
      calibrationOffset := calOffset;
      this.gripperId := gripperId;
      state := Unhomed;
      currentJawDisplacement := 0.0;
      attachedProbe := None;
    }

    /** Half the difference between the widest and narrowest jaw sizes. */
    function MaxJawDisplacement(): real
      reads this
    {
      (config.jawSizesMm.max - config.jawSizesMm.min) / 2.0
    }

    /** Attaches a probe; asserts that none is attached. */
    method AddProbe(probe: GripperProbe) returns (r: Outcome<GripperError>)
      modifies this`attachedProbe
      ensures r.Pass? <==> old(attachedProbe) == None
      ensures r.Fail? ==> r.error == AssertionError(ProbeAlreadyAttached)
      ensures attachedProbe == if r.Pass? then Some(probe) else old(attachedProbe)
    {
      if attachedProbe.Some? {
        return Fail(AssertionError(ProbeAlreadyAttached));
      }
      attachedProbe := Some(probe);
      r := Pass;
    }

    /** Detaches the probe; asserts that one is attached. */
    method RemoveProbe() returns (r: Outcome<GripperError>)
      modifies this`attachedProbe
      ensures r.Pass? <==> old(attachedProbe).Some?
      ensures r.Fail? ==> r.error == AssertionError(NoProbeAttached)
      ensures attachedProbe == if r.Pass? then None else old(attachedProbe)
    {
      if attachedProbe.None? {
        return Fail(AssertionError(NoProbeAttached));
      }
      attachedProbe := None;
      r := Pass;
    }

    /** The `current_jaw_displacement` setter: accepts 0 <= mm <= max + 2. */
    method SetCurrentJawDisplacement(mm: real) returns (r: Outcome<GripperError>)
      modifies this`currentJawDisplacement
      ensures r.Pass? <==> 0.0 <= mm <= MaxJawDisplacement() + 2.0
      ensures mm < 0.0 ==> r == Fail(AssertionError(NegativeDisplacement))
      ensures 0.0 <= mm && r.Fail? ==> r == Fail(AssertionError(DisplacementAboveMax))
      ensures currentJawDisplacement == if r.Pass? then mm else old(currentJawDisplacement)
    {
      if mm < 0.0 {
        return Fail(AssertionError(NegativeDisplacement));
      }
      var maxMm := MaxJawDisplacement() + 2.0;
      if mm > maxMm {
        return Fail(AssertionError(DisplacementAboveMax));
      }
      currentJawDisplacement := mm;
      r := Pass;
    }

    /** The `state` setter. */
    method SetState(s: GripperJawState)
      modifies this`state
      ensures state == s
    {
      state := s;
    }

    /** The jaws hold something thin enough for pin calibration. */
    predicate PinReady()
      reads this
    {
      attachedProbe.Some? && state == Gripping && currentJawDisplacement != 0.0
      && currentJawDisplacement <= MaxJawDisplacement() - 1.0
    }

    /** `check_calibration_pin_location_is_accurate`: passes exactly when a
        probe is attached, the jaws grip, and the displacement is nonzero and
        at most the maximum less one; otherwise the first unmet condition is
        reported. */
    function CheckCalibrationPinLocationIsAccurate(): (r: Outcome<GripperError>)
      reads this
      ensures r.Pass? <==> PinReady()
      ensures attachedProbe.None? ==> r == Fail(RuntimeError(NoProbe))
      ensures attachedProbe.Some? && state != Gripping ==> r == Fail(RuntimeError(NotGripping))
      ensures r.Fail? ==> r.error.RuntimeError?
    {
      if attachedProbe.None? then Fail(RuntimeError(NoProbe))
      else if state != Gripping then Fail(RuntimeError(NotGripping))
      else if currentJawDisplacement == 0.0 then Fail(RuntimeError(JawNotClosed))
      else if currentJawDisplacement > MaxJawDisplacement() - 1.0 then Fail(RuntimeError(NothingHeld))
      else Pass
    }

    /** The first half of `critical_point`: reject nozzle and tip overrides,
        otherwise take the override or the default the probe implies. */
    function SelectCriticalPoint(cpOverride: Option<CriticalPoint>): (r: Result<CriticalPoint, GripperError>)
      reads this
      ensures cpOverride in {Some(Nozzle), Some(Tip)} <==> r.Failure?
      ensures r.Failure? ==> r.error == InvalidMoveError(cpOverride)
      ensures r.Success? && cpOverride.Some? ==> r.value == cpOverride.value
      ensures cpOverride.None? && attachedProbe.None? ==> r == Success(GripperJawCenter)
      ensures cpOverride.None? && attachedProbe == Some(Rear) ==> r == Success(GripperRearCalibrationPin)
      ensures cpOverride.None? && attachedProbe == Some(Front) ==> r == Success(GripperFrontCalibrationPin)
    {
      if cpOverride == Some(Nozzle) || cpOverride == Some(Tip) then
        Failure(InvalidMoveError(cpOverride))
      else if cpOverride.Some? then
        Success(cpOverride.value)
      else if attachedProbe.None? then
        Success(GripperJawCenter)
      else if attachedProbe.value == Rear then
        Success(GripperRearCalibrationPin)
      else
        Success(GripperFrontCalibrationPin)
    }

    /** `critical_point`: the vector from the gripper mount to the selected
        critical point. */
    function CriticalPointOffset(cpOverride: Option<CriticalPoint>): (r: Result<Point, GripperError>)
      reads this
      ensures cpOverride in {Some(Nozzle), Some(Tip), Some(Mount), Some(FrontNozzle)} ==>
        r == Failure(InvalidMoveError(cpOverride))
      ensures (cpOverride in {Some(GripperJawCenter), Some(XYCenter)} ||
        (cpOverride.None? && attachedProbe.None?)) ==>
        r == Success(jawCenterOffset.Plus(calibrationOffset.offset))
      ensures (cpOverride == Some(GripperFrontCalibrationPin) ||
        (cpOverride.None? && attachedProbe == Some(Front))) ==>
        r == if PinReady()
             then Success(frontCalibrationPinOffset.Plus(calibrationOffset.offset).Plus(YOnly(currentJawDisplacement)))
             else Failure(CheckCalibrationPinLocationIsAccurate().error)
      ensures (cpOverride == Some(GripperRearCalibrationPin) ||
        (cpOverride.None? && attachedProbe == Some(Rear))) ==>
        r == if PinReady()
             then Success(rearCalibrationPinOffset.Plus(calibrationOffset.offset).Minus(YOnly(currentJawDisplacement)))
             else Failure(CheckCalibrationPinLocationIsAccurate().error)
    {
      match SelectCriticalPoint(cpOverride)
      case Failure(e) => Failure(e)
      case Success(cp) =>
        if cp == GripperJawCenter || cp == XYCenter then
          Success(jawCenterOffset.Plus(calibrationOffset.offset))
        else if cp == GripperFrontCalibrationPin then
          match CheckCalibrationPinLocationIsAccurate()
          case Fail(e) => Failure(e)
          case Pass =>
            Success(frontCalibrationPinOffset.Plus(calibrationOffset.offset).Plus(YOnly(currentJawDisplacement)))
        else if cp == GripperRearCalibrationPin then
          match CheckCalibrationPinLocationIsAccurate()
          case Fail(e) => Failure(e)
          case Pass =>
            Success(rearCalibrationPinOffset.Plus(calibrationOffset.offset).Minus(YOnly(currentJawDisplacement)))
        else
          Failure(InvalidMoveError(cpOverride))
    }

    /** A critical point is produced exactly for the jaw-center family, or for
        a calibration pin when the pin checks pass; everything else raises. */
    lemma CriticalPointSucceedsIff(cpOverride: Option<CriticalPoint>)
      ensures CriticalPointOffset(cpOverride).Success? <==>
        (cpOverride in {Some(GripperJawCenter), Some(XYCenter)}
         || (cpOverride.None? && attachedProbe.None?)
         || ((cpOverride in {Some(GripperFrontCalibrationPin), Some(GripperRearCalibrationPin)}
              || (cpOverride.None? && attachedProbe.Some?)) && PinReady()))
    {
      if cpOverride.None? && attachedProbe.Some? {
        match attachedProbe.value {
          case Front => assert attachedProbe == Some(Front);
          case Rear => assert attachedProbe == Some(Rear);
        }
      }
    }

    /** When the pins are ready, the front and rear pin points differ by the
        pin offsets and twice the jaw displacement along y. */
    lemma PinPointsAreSymmetric()
      requires PinReady()
      ensures CriticalPointOffset(Some(GripperFrontCalibrationPin)).Success?
      ensures CriticalPointOffset(Some(GripperRearCalibrationPin)).Success?
      ensures CriticalPointOffset(Some(GripperFrontCalibrationPin)).value.Minus(
                CriticalPointOffset(Some(GripperRearCalibrationPin)).value)
              == frontCalibrationPinOffset.Minus(rearCalibrationPinOffset).Plus(YOnly(2.0 * currentJawDisplacement))
    {
    }
  }

  /** `_reload_gripper`: keep the attached object unless a changed key is in
      `RECONFIG_KEYS`, in which case build a new one with the same serial. */
  method ReloadGripper(newConfig: GripperConfig, attached: Gripper, calOffset: GripperCalibrationOffset)
    returns (g: Gripper)
    ensures (newConfig == attached.config && calOffset == attached.calibrationOffset) ==> g == attached
    ensures g != attached <==> newConfig.quirks != attached.config.quirks
    ensures g != attached ==>
      fresh(g) && g.config == newConfig && g.calibrationOffset == calOffset
      && g.gripperId == attached.gripperId
      && g.state == Unhomed && g.currentJawDisplacement == 0.0 && g.attachedProbe == None
  {
    if newConfig == attached.config && calOffset == attached.calibrationOffset {
      ChangedKeysEmptyIffEqual(newConfig, attached.config);
      return attached;
    }
    var changed := ChangedConfigKeys(newConfig, attached.config);
    ReconfigNeededIffQuirksChanged(newConfig, attached.config);
    if changed * ReconfigKeys != {} {
      g := new Gripper(newConfig, calOffset, attached.gripperId);
      return;
    }
    g := attached;
  }

  /** The freshly detected gripper: its configuration and serial, if any. */
  datatype AttachedGripper = AttachedGripper(config: Option<GripperConfig>, id: Option<string>)

  /** `freshly_detected.get("id") or ""`. */
  function DetectedSerial(d: AttachedGripper): (s: string)
    ensures d.id.Some? ==> s == d.id.value
    ensures d.id.None? ==> s == ""
  {
    if d.id.Some? then d.id.value else ""
  }

  /** `compare_gripper_config_and_check_skip`. */
  method CompareGripperConfigAndCheckSkip(
    detected: AttachedGripper, attached: Gripper?, calOffset: GripperCalibrationOffset)
    returns (g: Gripper?)
    ensures detected.config.None? ==> g == null
    ensures detected.config.Some? && attached != null && DetectedSerial(detected) == attached.gripperId ==>
      g != null && (g == attached <==> detected.config.value.quirks == attached.config.quirks)
    ensures (detected.config.Some? && attached != null && DetectedSerial(detected) == attached.gripperId
      && g != attached) ==>
      fresh(g) && g.config == detected.config.value && g.calibrationOffset == calOffset
      && g.gripperId == attached.gripperId
      && g.state == Unhomed && g.currentJawDisplacement == 0.0 && g.attachedProbe == None
    ensures detected.config.Some? && (attached == null || DetectedSerial(detected) != attached.gripperId) ==>
      g != null && fresh(g) && g.config == detected.config.value && g.calibrationOffset == calOffset
      && g.gripperId == DetectedSerial(detected)
      && g.state == Unhomed && g.currentJawDisplacement == 0.0 && g.attachedProbe == None
  {
    var serial := DetectedSerial(detected);
    if detected.config.None? && attached == null {
      return attached;
    }
    if detected.config.Some? && attached != null {
      if serial == attached.gripperId {
        g := ReloadGripper(detected.config.value, attached, calOffset);
        return;
      }
    }
    if detected.config.Some? {
      g := new Gripper(detected.config.value, calOffset, serial);
    } else {
      g := null;
    }
  }
}

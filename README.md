# Opentrons robot-control rules, modelled in Dafny

This project models the self-contained decision rules found in several
Opentrons robot and bench-test files:

- **OT-3 gripper.** The gripper object tracks its jaw state, its jaw
  displacement and the calibration probe attached to it. The model selects the
  gripper's critical point and decides whether a freshly detected gripper needs
  a new object.
- **Gravimetric liquid-class planner.** It works out four pipetting heights and
  runs one fixed sequence of pipette steps: approach, air gap, submerge,
  aspirate or dispense, delay, retract, blow-out, finish.
- **Gravimetric test runner.** It seeds the liquid tracker from the deck. It
  then runs a volume-major schedule of trials around a recorder, and the
  recorder is always stopped.
- **Tool-sensor probing.** This covers the synchronised pass step and the
  non-blocking drain of the capture queue. The model also records the order in
  which the probe procedures make their requests.
- **Protocol reader.** The prevalidated read classifies each saved JSON file
  as the main protocol or as labware, and insists on exactly one main file.
  Results are assembled for saved and unsaved reads.
- **Pipette assembly QC script.** It maps a tip name to an XY offset and
  generates the tip lists. It also formats CSV rows and calibrates each labware
  location once per run.
- **Two tip pick-up bench scripts.** These share several pieces:
  - the accuracy-table plunger lookup;
  - the 16.16 fixed-point motor currents;
  - the one-node move-group builders;
  - the tracked head Z;
  - the keyboard jog loop with its clamped step index.

  The model also includes the plunger quantities the 96-channel script derives
  and the plunger moves it makes with them.
- **USB binary message-ID registry.** This is the list of message identifiers
  used on the USB binary protocol.

Lengths, speeds, volumes and currents are exact `real`s.

Foreign objects are classes that record each call made to them, in order:
- the pipette;
- the CAN messenger;
- the move runner;
- the liquid tracker;
- the recorder;
- the OT-3 API.

A raising foreign call is modelled in one of two ways. In the gravimetric run
it is a fixed trace position (`raisesAt`). For the sensors it is an explicit
input, such as the threshold that was echoed back.

Python's `assert`/`raise` paths become `Result`/`Outcome` values that carry
the error kind.

The two tip pick-up scripts carry the same lookup, current, builder and jog
code, up to constants and print text. The 96-channel script computes each
duration with a `_calc_time` helper, which the single-channel script writes
out inline. The constants that differ are the step list, its start index and
limit, and the gantry homing speed. Only the single-channel script has
`hold_current` and the global Z position state (`CURRENT_Z_POS`,
`CURRENT_TIP_LENGTH`, used by `move_z_axis_to`). The shared code lives once in
`ScriptCommon`, next to `hold_current` (the same payload builder with no run
current). `PickUpTipScript` holds the Z position state, and each script's
module fixes its own constants.

## Model

| member | source | states |
|---|---|---|
| BinaryConstants.Encode | hardware/opentrons_hardware/firmware_bindings/binary_constants.py:14-20 | every identifier has a value in 0..6, and only `echo` has 0 |
| BinaryConstants.Decode | hardware/opentrons_hardware/firmware_bindings/binary_constants.py:11-20 | `BinaryMessageId(n)` succeeds exactly for 0 <= n <= 6 and then encodes back to n; other integers give no identifier |
| BinaryConstants.DecodeEncode | hardware/opentrons_hardware/firmware_bindings/binary_constants.py:11-20 | decoding an identifier's value gives the identifier back |
| BinaryConstants.EncodeInjective | hardware/opentrons_hardware/firmware_bindings/binary_constants.py:10 | `@unique`: two identifiers with the same value are the same identifier |
| BinaryConstants.ValuesAreContiguous | hardware/opentrons_hardware/firmware_bindings/binary_constants.py:14-20 | the seven identifiers in declaration order have values 0, 1, …, 6, every identifier is listed, and all are distinct |
| BinaryConstants.ResponseTo | hardware/opentrons_hardware/firmware_bindings/binary_constants.py:17-20 | only the two requests have a response, and each response's value is the request's value plus one |
| BinaryConstants.ResponseFollowsRequest | hardware/opentrons_hardware/firmware_bindings/binary_constants.py:17-20 | decoding a request's value plus one gives exactly its paired response |
| Motion.Duration | hardware/opentrons_hardware/scripts/96Head_tip_pick_up_test_script.py:76-78 | `abs(distance / speed)` is non-negative, and times the speed's magnitude it is the distance's magnitude |
| Motion.SignedTravel | hardware/opentrons_hardware/scripts/pick_up_tip_test_script.py:235-287 | velocity times duration is the distance forward for a positive velocity and backward otherwise |
| OT3Gripper.ChangedConfigKeys | api/src/opentrons/hardware_control/instruments/ot3/gripper.py:238-243 | the loop collects exactly the configuration keys whose values differ between the two configurations |
| OT3Gripper.ChangedKeysEmptyIffEqual | api/src/opentrons/hardware_control/instruments/ot3/gripper.py:231-243 | no key differs exactly when the two configurations are equal |
| OT3Gripper.ReconfigNeededIffQuirksChanged | api/src/opentrons/hardware_control/instruments/ot3/gripper.py:244 | the changed keys meet `RECONFIG_KEYS` exactly when the quirks differ |
| OT3Gripper.Gripper.constructor | api/src/opentrons/hardware_control/instruments/ot3/gripper.py:50-70 | a new gripper is UNHOMED with displacement 0 and no probe, and its three offsets are the configured offsets plus the base offset |
| OT3Gripper.Gripper.AddProbe | api/src/opentrons/hardware_control/instruments/ot3/gripper.py:80-83 | succeeds exactly when no probe is attached and then attaches the given one; otherwise the assertion fails and nothing changes |
| OT3Gripper.Gripper.RemoveProbe | api/src/opentrons/hardware_control/instruments/ot3/gripper.py:85-87 | succeeds exactly when a probe is attached and then detaches it; otherwise the assertion fails and nothing changes |
| OT3Gripper.Gripper.SetCurrentJawDisplacement | api/src/opentrons/hardware_control/instruments/ot3/gripper.py:94-105 | accepts exactly 0 <= mm <= (max − min)/2 + 2 and then stores mm; a negative value and a too-large value fail different assertions and change nothing |
| OT3Gripper.Gripper.SetState | api/src/opentrons/hardware_control/instruments/ot3/gripper.py:111-113 | stores the jaw state |
| OT3Gripper.Gripper.CheckCalibrationPinLocationIsAccurate | api/src/opentrons/hardware_control/instruments/ot3/gripper.py:149-161 | passes exactly when a probe is attached, the jaws grip, and the displacement is nonzero and at most the maximum less 1; a missing probe and open jaws each raise their own RuntimeError, and every failure is a RuntimeError |
| OT3Gripper.Gripper.SelectCriticalPoint | api/src/opentrons/hardware_control/instruments/ot3/gripper.py:168-179 | a NOZZLE or TIP override raises InvalidMoveError; any other override is kept; without one, no probe gives jaw center, a rear probe the rear pin, and a front probe the front pin |
| OT3Gripper.Gripper.CriticalPointOffset | api/src/opentrons/hardware_control/instruments/ot3/gripper.py:163-198 | jaw center and XY center give the jaw-center offset plus calibration; the front pin adds (0, d, 0) and the rear pin subtracts it, both only when the pin checks pass; MOUNT, FRONT_NOZZLE, NOZZLE and TIP raise InvalidMoveError |
| OT3Gripper.Gripper.CriticalPointSucceedsIff | api/src/opentrons/hardware_control/instruments/ot3/gripper.py:163-198 | a point is returned exactly for the jaw-center family, or for a pin (explicit or implied by the probe) when the pin checks pass |
| OT3Gripper.Gripper.PinPointsAreSymmetric | api/src/opentrons/hardware_control/instruments/ot3/gripper.py:183-196 | with the pins ready, front minus rear point is the pin-offset difference plus twice the displacement along y |
| OT3Gripper.ReloadGripper | api/src/opentrons/hardware_control/instruments/ot3/gripper.py:222-247 | the same object when config and calibration are unchanged; a fresh gripper with the new config and the old serial exactly when the quirks changed; otherwise the same object, so a changed calibration offset alone keeps it |
| OT3Gripper.DetectedSerial | api/src/opentrons/hardware_control/instruments/ot3/gripper.py:265 | `freshly_detected.get("id") or ""` |
| OT3Gripper.CompareGripperConfigAndCheckSkip | api/src/opentrons/hardware_control/instruments/ot3/gripper.py:250-282 | nothing detected gives None; a detected gripper whose serial matches the attached one goes through the reload rule; any other detected gripper gets a fresh object with the detected serial |
| LiquidClass.CreatePipettingHeights | hardware-testing/hardware_testing/gravimetric/pipette/liquid_class.py:38-68 | fails its assertions exactly on a zero retract or submerge distance; otherwise each "above" is max(level + retract, 1.5) and each "below" max(level − submerge, 1.5), for start and end |
| LiquidClass.HeightsAreOrdered | hardware-testing/hardware_testing/gravimetric/pipette/liquid_class.py:51-68 | with positive distances the heights exist, each "above" is at least its "below", and an end level no higher than the start level never gives higher end heights |
| LiquidClass.NewLiquidSettingsRunner | hardware-testing/hardware_testing/gravimetric/pipette/liquid_class.py:86-99 | a runner is built exactly when one of aspirate and dispense is given; each of the other two cases fails its own assertion |
| LiquidClass.Run | hardware-testing/hardware_testing/gravimetric/pipette/liquid_class.py:101-121 | the pipette receives exactly approach, pre-submerge callback, air gap, submerge, aspirate or dispense, delay, retract, blow-out, finish and post-emerge callback, in that order; the dispense flow rate comes back unchanged |
| LiquidClass.RunPrefix | hardware-testing/hardware_testing/gravimetric/pipette/liquid_class.py:110-114 | approach, pre-submerge callback, air gap and submerge, with the air gap's volume added to the tip |
| LiquidClass.RunLiquid | hardware-testing/hardware_testing/gravimetric/pipette/liquid_class.py:115-118 | aspirate when aspirate is truthy, otherwise dispense |
| LiquidClass.RunSuffix | hardware-testing/hardware_testing/gravimetric/pipette/liquid_class.py:119-121 | delay, retract, blow-out, finish and post-emerge callback |
| LiquidClass.RunApproach | hardware-testing/hardware_testing/gravimetric/pipette/liquid_class.py:123-124 | one move to the well top |
| LiquidClass.RunGatherAirGaps | hardware-testing/hardware_testing/gravimetric/pipette/liquid_class.py:126-128 | aspirates the wet air gap only when aspirating with a nonzero wet-air-gap volume |
| LiquidClass.RunSubmerge | hardware-testing/hardware_testing/gravimetric/pipette/liquid_class.py:130-139 | the two submerge moves |
| LiquidClass.RunAspirate | hardware-testing/hardware_testing/gravimetric/pipette/liquid_class.py:141-143 | aspirates the volume when aspirating |
| LiquidClass.RunDispense | hardware-testing/hardware_testing/gravimetric/pipette/liquid_class.py:145-156 | dispenses the volume; any leftover is dispensed at the wet-air-gap rate, the old rate is restored, and the tip ends empty |
| LiquidClass.RunDelay | hardware-testing/hardware_testing/gravimetric/pipette/liquid_class.py:158-165 | one call of the delay method |
| LiquidClass.RunRetract | hardware-testing/hardware_testing/gravimetric/pipette/liquid_class.py:167-172 | the two retract moves |
| LiquidClass.RunBlowOut | hardware-testing/hardware_testing/gravimetric/pipette/liquid_class.py:174-176 | blows out only when dispensing with a nonzero blow-out volume, leaving the tip empty |
| LiquidClass.RunFinish | hardware-testing/hardware_testing/gravimetric/pipette/liquid_class.py:178-179 | a direct move to the well top |
| LiquidClass.DelayCalledOnce | hardware-testing/hardware_testing/gravimetric/pipette/liquid_class.py:158-165 | `run` calls the delay method exactly once: with the aspirate delay when aspirating with a nonzero delay, else with the dispense delay when dispensing with a nonzero delay, else with 0 |
| LiquidClass.WetAirGapOnlyWhenAspirating | hardware-testing/hardware_testing/gravimetric/pipette/liquid_class.py:126-128 | the call after the approach (and the callback) aspirates the wet air gap exactly when aspirating with a nonzero wet-air-gap volume |
| LiquidClass.BlowOutOnlyWhenDispensing | hardware-testing/hardware_testing/gravimetric/pipette/liquid_class.py:174-176 | `run` blows out exactly when dispensing with a nonzero blow-out volume |
| LiquidClass.SubmergeSequence | hardware-testing/hardware_testing/gravimetric/pipette/liquid_class.py:130-139 | right after the air gap, the first move goes to max(start.above, end.below), which is never under end.below; the second is a direct move to end.below at the submerge speed |
| LiquidClass.LeftoverDispensedAtAirGapRate | hardware-testing/hardware_testing/gravimetric/pipette/liquid_class.py:145-156 | when more is held than dispensed, the rate is switched to the wet-air-gap rate, the rest is dispensed and the previous rate is put back; otherwise there is only the one dispense |
| LiquidClass.RunIsBracketed | hardware-testing/hardware_testing/gravimetric/pipette/liquid_class.py:101-121 | the approach is the first call (then the pre-submerge callback); the finish move comes last before the post-emerge callback, which ends the run |
| LiquidClass.PipetteLiquidClass.constructor | hardware-testing/hardware_testing/gravimetric/pipette/liquid_class.py:185-206 | the default class is current and no callback is set |
| LiquidClass.PipetteLiquidClass.SetLiquidClass | hardware-testing/hardware_testing/gravimetric/pipette/liquid_class.py:227-237 | stores the class; with a nonzero traverse speed it copies the speed and the three flow rates to the pipette, otherwise the assertion fails and the pipette is untouched |
| LiquidClass.PipetteLiquidClass.AssignCallbacks | hardware-testing/hardware_testing/gravimetric/pipette/liquid_class.py:239-250 | stores the four callbacks |
| LiquidClass.PipetteLiquidClass.PipetteLiquidSettings | hardware-testing/hardware_testing/gravimetric/pipette/liquid_class.py:260-297 | a height failure or a bad runner changes nothing; otherwise the runner's calls, made with the aspirate or dispense callback pair, are followed by the tracker update |
| LiquidClass.PipetteLiquidClass.Aspirate | hardware-testing/hardware_testing/gravimetric/pipette/liquid_class.py:252-254 | succeeds exactly when the heights can be built, else returns that error and changes nothing; on success the runner's calls with the aspirate volume only and the aspirate callbacks, then the tracker update; the volume is what the run leaves and the dispense flow rate is restored |
| LiquidClass.PipetteLiquidClass.Dispense | hardware-testing/hardware_testing/gravimetric/pipette/liquid_class.py:256-258 | succeeds exactly when the heights can be built, else returns that error and changes nothing; on success the runner's calls with the dispense volume only and the dispense callbacks, then the tracker update; the volume is what the run leaves and the dispense flow rate is restored |
| GravimetricExecute.InitializeLiquidFromDeck | hardware-testing/hardware_testing/gravimetric/execute.py:45-56 | the tracker is reset first, then one well initialisation per well of every kept labware, in deck order |
| GravimetricExecute.InitCallsAreKeptWells | hardware-testing/hardware_testing/gravimetric/execute.py:52-56 | a well is initialised exactly when it belongs to a labware that is not a tip rack and whose lower-cased name lacks "trash" |
| GravimetricExecute.InitCallsAreWellInits | hardware-testing/hardware_testing/gravimetric/execute.py:55-56 | after the reset, only well initialisations are made |
| GravimetricExecute.ScheduleLength | hardware-testing/hardware_testing/gravimetric/execute.py:143 | the schedule has one entry per volume and trial |
| GravimetricExecute.ScheduleIsVolumeMajor | hardware-testing/hardware_testing/gravimetric/execute.py:143 | entry k is volume k / trials with trial number k % trials + 1 |
| GravimetricExecute.RunTrial | hardware-testing/hardware_testing/gravimetric/execute.py:145-170 | one trial's calls up to the first one that raises: drop a held tip, pick up, aspirate and settle, dispense the same volume into the same well and settle, drop the tip |
| GravimetricExecute.RunAllTrials | hardware-testing/hardware_testing/gravimetric/execute.py:144-170 | the scheduled trials' calls in order, up to and including the first one that raises |
| GravimetricExecute.Run | hardware-testing/hardware_testing/gravimetric/execute.py:128-175 | record, trials and final pause up to the first raising call, then `recorder.stop()` in every case; it fails exactly when a call in the `try` raises |
| GravimetricExecute.RunHandlesTips | hardware-testing/hardware_testing/gravimetric/execute.py:144-170 | a tip is never picked up while one is held, and none is held at the end unless nothing was scheduled |
| GravimetricExecute.RunLiquidOps | hardware-testing/hardware_testing/gravimetric/execute.py:154-167 | the liquid calls are, per scheduled trial in order, one aspirate and one dispense of its volume in the well |
| ToolSensors.CopySignOne | hardware/opentrons_hardware/hardware_control/tool_sensors.py:47-49 | ±1, +1 exactly for x ≥ 0 (zero counts as positive), and times x it is abs(x) |
| ToolSensors.BuildPassStep | hardware/opentrons_hardware/hardware_control/tool_sensors.py:34-54 | IndexError without a head axis (when a pipette moves), KeyError for a mover missing from the maps, failure for a zero first speed; otherwise distances abs(distance[ax]), velocities speed × sign, duration from movers[0], sync-line stop, no acceleration, present nodes = movers |
| ToolSensors.DistanceMap | hardware/opentrons_hardware/hardware_control/tool_sensors.py:46 | exactly the movers, each at abs(distance) |
| ToolSensors.VelocityMap | hardware/opentrons_hardware/hardware_control/tool_sensors.py:47-49 | exactly the movers, each at its speed signed by its distance |
| ToolSensors.SignedSpeedCoversDistance | hardware/opentrons_hardware/hardware_control/tool_sensors.py:46-49 | the signed speed keeps the speed's magnitude, equals speed × copysign(1, d), and times abs(d) gives speed × d |
| ToolSensors.DurationFromFirstMover | hardware/opentrons_hardware/hardware_control/tool_sensors.py:41-51 | with the pipette listed first, the duration is the pipette's even though the head is the primary mover |
| ToolSensors.PipetteWithoutHeadFails | hardware/opentrons_hardware/hardware_control/tool_sensors.py:41-44 | a moving pipette with no head axis among the movers raises IndexError |
| ToolSensors.CaptureQueue.GetNowait | hardware/opentrons_hardware/hardware_control/tool_sensors.py:157-160 | the oldest sample is removed and returned, or nothing when the queue is empty |
| ToolSensors.Drain | hardware/opentrons_hardware/hardware_control/tool_sensors.py:155-162 | returns every queued sample oldest first and leaves the queue empty |
| ToolSensors.LiquidProbe | hardware/opentrons_hardware/hardware_control/tool_sensors.py:57-89 | a failed pass-step build raises before any request; otherwise threshold, bind, run and unbind, returning the run's result |
| ToolSensors.CapacitiveProbe | hardware/opentrons_hardware/hardware_control/tool_sensors.py:92-131 | no echoed threshold raises RuntimeError after only the threshold request, and so does a failed pass-step build with its own error; otherwise threshold, bind, run and unbind, returning the mover's position and encoder position, or KeyError when the run reports no such node |
| ToolSensors.CapacitivePass | hardware/opentrons_hardware/hardware_control/tool_sensors.py:134-162 | prep, then execute inside the capture scope, then the captured samples drained in order |
| ToolSensors.LiquidProbeOrder | hardware/opentrons_hardware/hardware_control/tool_sensors.py:83-89 | the threshold is sent before the binding opens, and the run happens inside it |
| ToolSensors.CapacitiveProbeOrder | hardware/opentrons_hardware/hardware_control/tool_sensors.py:120-131 | the run happens strictly inside the sync binding |
| ToolSensors.CapacitivePassOrder | hardware/opentrons_hardware/hardware_control/tool_sensors.py:151-162 | prep precedes the capture scope, and execute happens strictly inside it |
| ProtocolReader.AllFiles | api/src/opentrons/protocol_reader/protocol_reader.py:105-108 | the main file first, then the labware files in order |
| ProtocolReader.ReadAndSave | api/src/opentrons/protocol_reader/protocol_reader.py:80-124 | analysis errors become ProtocolFilesInvalidError; otherwise the files are main then labware, each at directory / name, with the analysed main file and config |
| ProtocolReader.ReadSaved | api/src/opentrons/protocol_reader/protocol_reader.py:126-176 | analysis errors become ProtocolFilesInvalidError; a file without a path fails the assertion; otherwise every file keeps its own path and role, and config, metadata, robot type and labware definitions come from the analyses |
| ProtocolReader.LooksLikeProtocol | api/src/opentrons/protocol_reader/protocol_reader.py:208-213 | true exactly when "$otSharedSchema" holds a string starting with "#/protocol/schemas"; a missing key means labware; a non-string value raises |
| ProtocolReader.ExtractMainFileInfo | api/src/opentrons/protocol_reader/protocol_reader.py:217-227 | succeeds exactly when "schemaVersion", "metadata" and "robot"."model" are present, and then holds the path, the contents and those three values |
| ProtocolReader.ScanStep | api/src/opentrons/protocol_reader/protocol_reader.py:198-237 | one file of the loop: a non-JSON name fails its assertion, a non-string schema value raises, a second main file fails "Multiple main files?"; otherwise the file is appended with role MAIN exactly when it looks like a protocol, and only then is the main file info set |
| ProtocolReader.Scan | api/src/opentrons/protocol_reader/protocol_reader.py:197-237 | the loop over all files: none gives no main file and no entries; on success one entry per file, with that file's path, in order |
| ProtocolReader.Assemble | api/src/opentrons/protocol_reader/protocol_reader.py:239-251 | no main file fails "No main files?"; otherwise the source names the main file, keeps the entries, and takes the schema version, metadata, robot type and unvalidated contents from the main file |
| ProtocolReader.ReadSavedPrevalidated | api/src/opentrons/protocol_reader/protocol_reader.py:178-251 | any ".py" name delegates to `read_saved`; otherwise the loop's result (first error, or one entry per file in order) and the assembly of main file and config |
| ProtocolReader.ScanStopsAtFirstError | api/src/opentrons/protocol_reader/protocol_reader.py:197-237 | once a prefix of the files raises, the loop raises the same error |
| ProtocolReader.ScanListsFilesInOrder | api/src/opentrons/protocol_reader/protocol_reader.py:197-237 | a successful loop lists every input file once, in input order, with role MAIN exactly for the protocol-looking documents |
| ProtocolReader.ScanOfWellFormedFiles | api/src/opentrons/protocol_reader/protocol_reader.py:208-237 | over readable JSON files the loop succeeds exactly when at most one is MAIN; two MAIN files fail "Multiple main files?"; on success a main file was found exactly when there is one |
| ProtocolReader.PrevalidatedNeedsExactlyOneMain | api/src/opentrons/protocol_reader/protocol_reader.py:197-251 | over readable JSON files the read succeeds exactly with one MAIN file; none fails "No main files?" and two fail "Multiple main files?" |
| ProtocolReader.NonJsonFileIsRejected | api/src/opentrons/protocol_reader/protocol_reader.py:198 | a name not ending in ".json" (case-insensitively) fails the loop's assertion at that file |
| PipetteAssemblyQc.RightFixtureMirrorsLeft | hardware-testing/hardware_testing/production_qc/pipette_assembly_qc_ot3.py:27-28 | the right fixture equals the left one except x = 128 − 14.4 |
| PipetteAssemblyQc.RowIndex | hardware-testing/hardware_testing/production_qc/pipette_assembly_qc_ot3.py:86-87 | the index of the row letter in A..H, or ValueError |
| PipetteAssemblyQc.ParseInt | hardware-testing/hardware_testing/production_qc/pipette_assembly_qc_ot3.py:88 | `int(s)` on ASCII text: a non-empty string of ASCII digits gives its decimal value; any other string raises ValueError |
| PipetteAssemblyQc.TipNameToXyOffsetAsWritten | hardware-testing/hardware_testing/production_qc/pipette_assembly_qc_ot3.py:85-89 | as written: x = 9·(int(tip[1]) − 1), y = 9·row; IndexError for an empty name or a lone row letter; ValueError for a bad row letter or a non-digit tip[1] |
| PipetteAssemblyQc.AsWrittenMisplacesTwoDigitColumns | hardware-testing/hardware_testing/production_qc/pipette_assembly_qc_ot3.py:88 | "A10" and "A12" get the same offset as "A1", (0, 0, 0) |
| PipetteAssemblyQc.TipNameToXyOffset | hardware-testing/hardware_testing/production_qc/pipette_assembly_qc_ot3.py:85-89 | corrected: x = 9·(column − 1) for the whole column number after the row letter; IndexError for an empty name; ValueError for a bad row letter or when what follows it is not a non-empty digit string |
| PipetteAssemblyQc.TipsOfRow | hardware-testing/hardware_testing/production_qc/pipette_assembly_qc_ot3.py:285-286 | `[f"{row}{i + 1}" for i in range(n)]`: n names, the i-th being the row letter and i + 1 |
| PipetteAssemblyQc.GeneratedTipsParse | hardware-testing/hardware_testing/production_qc/pipette_assembly_qc_ot3.py:285-286 | every generated tip name parses back to column i and its row |
| PipetteAssemblyQc.TipListsCoverRowsAAndB | hardware-testing/hardware_testing/production_qc/pipette_assembly_qc_ot3.py:285-286 | the i-th liquid tip is at (9i, 0) and the i-th fixture tip at (9i, 9) |
| PipetteAssemblyQc.SplitJoin | hardware-testing/hardware_testing/production_qc/pipette_assembly_qc_ot3.py:274 | splitting a comma-joined list of comma-free items gives the items back |
| PipetteAssemblyQc.CsvLine | hardware-testing/hardware_testing/production_qc/pipette_assembly_qc_ot3.py:270-275 | a CSV line ends in "\n" |
| PipetteAssemblyQc.CsvLineFields | hardware-testing/hardware_testing/production_qc/pipette_assembly_qc_ot3.py:270-275 | the line minus its "\n" splits into exactly [elapsed] ++ data |
| PipetteAssemblyQc.IdealLabwareLocations | hardware-testing/hardware_testing/production_qc/pipette_assembly_qc_ot3.py:68-82 | tip rack and reservoir as given, trash 45 mm above its square, fixture at the left fixture location |
| PipetteAssemblyQc.QcSession.ResetForMain | hardware-testing/hardware_testing/production_qc/pipette_assembly_qc_ot3.py:249-252 | `_main` sets the ideal locations and clears every calibrated one |
| PipetteAssemblyQc.QcSession.CalibrateAndPickUpTip | hardware-testing/hardware_testing/production_qc/pipette_assembly_qc_ot3.py:92-109 | first call: move 10 mm above the ideal tip rack, jog, record the jogged position, rise 5 mm, then the pick-up moves; later calls: only the pick-up moves at the recorded rack; the pick-up moves are the arched move to rack + as-written offset (5 mm safe height) and the pick-up, none when the tip name raises, whose error is returned; no ideal location fails the assertion with nothing done; no other location changes |
| PipetteAssemblyQc.PickUpAt | hardware-testing/hardware_testing/production_qc/pipette_assembly_qc_ot3.py:105-109 | the arched move to rack + as-written tip offset with a safe height 5 mm above it, then the pick-up; nothing when the tip name does not parse |
| PipetteAssemblyQc.QcSession.CalibrateAndMoveToLiquid | hardware-testing/hardware_testing/production_qc/pipette_assembly_qc_ot3.py:112-125 | the reservoir is captured on first use and reused afterwards; only that location changes |
| PipetteAssemblyQc.QcSession.CalibrateAndMoveToFixture | hardware-testing/hardware_testing/production_qc/pipette_assembly_qc_ot3.py:128-141 | the fixture is captured on first use and reused afterwards; only that location changes |
| PipetteAssemblyQc.QcSession.DropTipInTrash | hardware-testing/hardware_testing/production_qc/pipette_assembly_qc_ot3.py:192-200 | fails without an ideal trash; otherwise arches to it with a safe height 20 mm above it and drops the tip |
| PipetteAssemblyQc.CalibrateOnceThenReuse | hardware-testing/hardware_testing/production_qc/pipette_assembly_qc_ot3.py:112-125 | after `_main`'s reset, the first jogged reservoir position is kept by every later visit |
| ScriptCommon.Travel | hardware/opentrons_hardware/scripts/pick_up_tip_test_script.py:186-190 | volume / (volume·slope + intercept), whose product with the divisor is the volume; ZeroDivisionError on a zero divisor |
| ScriptCommon.GetPlungerDistanceForVolume | hardware/opentrons_hardware/scripts/pick_up_tip_test_script.py:181-191 | the loop returns what the lookup over adjacent rows specifies |
| ScriptCommon.PlungerDistance | hardware/opentrons_hardware/scripts/pick_up_tip_test_script.py:181-191 | ValueError exactly when no adjacent pair strictly brackets the volume; otherwise the travel read off a bracketing pair |
| ScriptCommon.LookupFrom | hardware/opentrons_hardware/scripts/pick_up_tip_test_script.py:181-191 | from row i on: ValueError exactly when no pair from i on brackets the volume; otherwise a bracketing pair from i on gives the result |
| ScriptCommon.LookupUsesFirstBracket | hardware/opentrons_hardware/scripts/pick_up_tip_test_script.py:181-190 | the result is read off the first adjacent pair with lower < volume < upper |
| ScriptCommon.LookupFailsIffNoBracket | hardware/opentrons_hardware/scripts/96Head_tip_pick_up_test_script.py:54-64 | ValueError exactly when no adjacent pair strictly brackets the volume |
| ScriptCommon.VolumeAtRowIsRejected | hardware/opentrons_hardware/scripts/pick_up_tip_test_script.py:185-191 | in an increasing table, a volume equal to a row's volume raises ValueError |
| ScriptCommon.EncodeDecodeCurrent | hardware/opentrons_hardware/scripts/pick_up_tip_test_script.py:194-214 | a current on the 1/65536 grid encodes to exactly its count |
| ScriptCommon.DecodeEncodeCurrent | hardware/opentrons_hardware/scripts/pick_up_tip_test_script.py:194-214 | any non-negative current is truncated by less than one count |
| ScriptCommon.EncodeCurrentMonotone | hardware/opentrons_hardware/scripts/pick_up_tip_test_script.py:194-214 | a larger current never encodes to fewer counts |
| ScriptCommon.HoldCurrent | hardware/opentrons_hardware/scripts/pick_up_tip_test_script.py:194-203 | sends hold = trunc(current·2^16), run = 0 |
| ScriptCommon.SetCurrent | hardware/opentrons_hardware/scripts/96Head_tip_pick_up_test_script.py:81-90 | sends hold = 0, run = trunc(current·2^16) |
| ScriptCommon.CalcTime | hardware/opentrons_hardware/scripts/96Head_tip_pick_up_test_script.py:76-78 | non-negative time that, times the speed's magnitude, is the distance's magnitude; ZeroDivisionError at zero speed |
| ScriptCommon.MoveSingleAxis | hardware/opentrons_hardware/scripts/pick_up_tip_test_script.py:235-287 | one node, step distance 0, the velocity passed unchanged as the direction, duration abs(distance / velocity); ZeroDivisionError at zero velocity |
| ScriptCommon.MovePipetteMechanism | hardware/opentrons_hardware/scripts/pick_up_tip_test_script.py:217-233 | one pick-up tip action of the left pipette at the velocity for abs(distance / velocity) |
| ScriptCommon.HomePipetteJaw | hardware/opentrons_hardware/scripts/pick_up_tip_test_script.py:289-307 | one pick-up tip-action step of the left pipette at −5.5 mm/s for the time 40 mm takes, stopping at the limit switch |
| ScriptCommon.HomeZPlan | hardware/opentrons_hardware/scripts/pick_up_tip_test_script.py:355-373 | the left head up at 10.5 mm/s to the limit switch, for at most 100 s |
| ScriptCommon.HomeGantryXY | hardware/opentrons_hardware/scripts/96Head_tip_pick_up_test_script.py:231-257 | X in the first group and Y in the second, each at −speed to the limit switch |
| ScriptCommon.HomePlunger | hardware/opentrons_hardware/scripts/pick_up_tip_test_script.py:404-416 | one home step of the left pipette: distance 100, velocity −5 |
| ScriptCommon.OnlyZKeysMoveOnlyZ | hardware/opentrons_hardware/scripts/pick_up_tip_test_script.py:470-514 | with `only_z` only the Z keys jog; otherwise a key jogs Z exactly when it is `i` or `k` |
| ScriptCommon.KeyAction | hardware/opentrons_hardware/scripts/pick_up_tip_test_script.py:470-535 | `q` quits, `+`/`-` change the step and Enter saves, each for that key only; `i`/`k` jog Z; `a`/`d`/`w`/`s` jog X or Y unless only Z may move; `a`, `s` and `k` move forward |
| ScriptCommon.JogKey | hardware/opentrons_hardware/scripts/pick_up_tip_test_script.py:470-542 | one pass keeps the step index in [0, limit] with the step the list entry it names |
| ScriptCommon.JogRun | hardware/opentrons_hardware/scripts/pick_up_tip_test_script.py:449-548 | over any keys typed the step stays a valid list entry |
| ScriptCommon.JogPass | hardware/opentrons_hardware/scripts/pick_up_tip_test_script.py:470-542 | one pass of the loop body does what the key-transition function says, to the counters, the position dict and the messenger |
| ScriptCommon.JogAxis | hardware/opentrons_hardware/scripts/pick_up_tip_test_script.py:445-548 | the loop leaves the position dict and the messages as the key-transition function specifies, returning on Enter, exiting on `q`, raising on a missing status-line entry |
| ScriptCommon.JogAlongKeepsInvariant | hardware/opentrons_hardware/scripts/pick_up_tip_test_script.py:470-514 | a jog keeps each counter equal to its axis's commanded travel, a moved axis's entry equal to its counter, and the gantry still with `only_z` |
| ScriptCommon.JogKeyKeepsInvariant | hardware/opentrons_hardware/scripts/pick_up_tip_test_script.py:470-537 | every key keeps the jog invariant |
| ScriptCommon.SavedPositionIsCommandedTravel | hardware/opentrons_hardware/scripts/96Head_tip_pick_up_test_script.py:382-384 | the map Enter returns holds, for each jogged axis, the total travel commanded of it, and the caller's other entries |
| ScriptCommon.StatusLineNeedsAxisEntries | hardware/opentrons_hardware/scripts/pick_up_tip_test_script.py:538-542 | a map holding all three axis entries never raises KeyError, whatever is typed; a map lacking one raises when the first key typed neither jogs, saves nor quits |
| ScriptCommon.OnlyZLeavesGantry | hardware/opentrons_hardware/scripts/pick_up_tip_test_script.py:470-514 | with `only_z` the gantry is never driven and its entries come back untouched |
| PickUpTipScript.JogStepStaysListed | hardware/opentrons_hardware/scripts/pick_up_tip_test_script.py:446-533 | the step starts at 50 mm and the index stays in [0, 8], so the step is always in the list |
| PickUpTipScript.TipMovesBuild | hardware/opentrons_hardware/scripts/pick_up_tip_test_script.py:426-427 | the grab and drop moves run 19 mm and 29 mm at 5.5 mm/s |
| PickUpTipScript.ZTracker.MoveZAxisTo | hardware/opentrons_hardware/scripts/pick_up_tip_test_script.py:310-333 | the tracked Z becomes position − tip length even at zero velocity; the velocity is +abs(v) exactly when the target lies below the old Z, and velocity × duration is the change of Z |
| PickUpTipScript.ZTracker.HomeZAxis | hardware/opentrons_hardware/scripts/pick_up_tip_test_script.py:355-373 | the tracked Z is 0 as soon as the homing plan is built |
| PickUpTipScript.HomeThenMoveTo | hardware/opentrons_hardware/scripts/pick_up_tip_test_script.py:310-373 | after homing, a move to a position commands exactly position − tip length of travel |
| PickUpTipScript.HomeXYOrder | hardware/opentrons_hardware/scripts/pick_up_tip_test_script.py:375-401 | X homes before Y, at −10.5 mm/s to the limit switch |
| Head96Script.JogStepStaysListed | hardware/opentrons_hardware/scripts/96Head_tip_pick_up_test_script.py:293-380 | the step starts at 10 mm (index 3) and the index stays in [0, 5] |
| Head96Script.DerivePlungerPlan | hardware/opentrons_hardware/scripts/96Head_tip_pick_up_test_script.py:483-489 | the lookup's error comes first; the aspirate speed takes as long as the volume at the flow rate; air gaps are µL / 15.904; dispense = leading + aspirate + trailing |
| Head96Script.DerivedPlanIsSensible | hardware/opentrons_hardware/scripts/96Head_tip_pick_up_test_script.py:483-489 | positive volumes and rates give a plan with non-negative travels and a positive aspirate speed |
| Head96Script.PreWetReturns | hardware/opentrons_hardware/scripts/96Head_tip_pick_up_test_script.py:533-538 | the pre-wet cycles, each up by the aspirate travel and back down, leave the plunger where it was |
| Head96Script.PreWetMoves | hardware/opentrons_hardware/scripts/96Head_tip_pick_up_test_script.py:533-538 | n pre-wet cycles are 2n moves of the aspirate travel, alternately up and down at the aspirate speed |
| Head96Script.PreWet | hardware/opentrons_hardware/scripts/96Head_tip_pick_up_test_script.py:533-538 | five cycles (ten moves) with pre-wet on, none with it off |
| Head96Script.IntakeMovesAsWritten | hardware/opentrons_hardware/scripts/96Head_tip_pick_up_test_script.py:522-544 | as written: down to the bottom, then the move printed as the leading gap goes DOWN by the trailing gap's travel, the pre-wet, the aspirate, and the trailing gap draws up the leading gap's travel |
| Head96Script.IntakeMoves | hardware/opentrons_hardware/scripts/96Head_tip_pick_up_test_script.py:522-544 | corrected: down to the bottom, the leading gap drawn up, the pre-wet, the aspirate, the trailing gap drawn up |
| Head96Script.OutputMoves | hardware/opentrons_hardware/scripts/96Head_tip_pick_up_test_script.py:547-554 | the dispense goes down by the dispense travel, then the blow-out goes down by blow-out − bottom at 10 mm/s |
| Head96Script.OutputTravel | hardware/opentrons_hardware/scripts/96Head_tip_pick_up_test_script.py:547-554 | dispense and blow-out take the plunger down by the dispense travel plus 5 mm |
| Head96Script.AsWrittenOvershootsBlowOut | hardware/opentrons_hardware/scripts/96Head_tip_pick_up_test_script.py:524-554 | as written, the plunger ends twice the trailing gap past the blow-out position |
| Head96Script.AsWrittenT1000TenMicrolitres | hardware/opentrons_hardware/scripts/96Head_tip_pick_up_test_script.py:433-437 | for `t1000-10ul` the plunger ends 20 / 15.904 mm past the blow-out position |
| Head96Script.IntakeThenOutputEndsAtBlowOut | hardware/opentrons_hardware/scripts/96Head_tip_pick_up_test_script.py:524-554 | with both air gaps drawn up, the dispense returns the plunger to the bottom and the blow-out ends exactly at 71 mm |

## Left out

- Bus, terminal and file I/O are left out:
  - the CAN messenger and the move-group runner are recorded as calls, not run;
  - `getch`, `input()` and `print` are left out, apart from the status line's `KeyError`; `quit()` becomes a cancelled jog;
  - argparse, logging, `time()`, CSV file appends and the pressure fixture are left out.
- Async scheduling and threads are left out: the recorder's thread, anyio's worker threads and `asyncio` ordering beyond the recorded call order.
- IEEE-754 arithmetic is left out: numpy `float64`, the −0.0 case of `copysign`, and `round()`. All arithmetic is exact.
- `MoveGroupSingleAxisStep`'s default stop condition is taken to be `none`, because motion.py is not part of this model. The same holds for `create_home_step`, which is kept as the arguments it was given, and for `UInt32Field`'s range.
- `_get_accuracy_adjust_table` and the `TESTS` table feed the model as parameters; only the `t1000-10ul` row enters a lemma.
- The interactive procedures are not modelled: `run` of the single-channel script, and `_run` of the 96-channel script apart from its plunger quantities and plunger moves. The head, jaw and jog moves in between are not modelled. In `run`, `CURRENT_TIP_LENGTH` is assigned without `global` (pick_up_tip_test_script.py:716), so `move_z_axis_to` keeps reading 0; `ZTracker` models the global only.
- `setup` and `analyze` of execute.py are left out. Inside `run`, `liquid_pipette.aspirate`/`dispense` are single recorded events, because `PipetteLiquidClass` is modelled on its own. The `set_sample_tag` context with its delay is one `TaggedDelay` event, and `recorder.stop()` never raises.
- `_aspirate_and_look_for_droplets`, `_fixture_check_for_leak` and `_test_for_leak` are left out: they are operator prompts and fixture reads. `_calibrate_and_*` move the API through recorded robot actions.
- Protocol-reader collaborators are left out: the file reader/writer, role and config analysers, `json.load` and pydantic parsing are inputs. JSON is an abstract key-to-value map, and the analysis result is a parameter.
- Gripper `reset_offset`/`save_offset`, `duty_cycle_by_force`, `update_config_item` and `as_dict` are left out: they call calibration storage or unseen config code.
- ParseInt: only ASCII digit strings are read. Python's `int` also accepts a sign, surrounding whitespace, `_` between digits and non-ASCII decimal digits, which the model reports as ValueError. A tip name never contains them.
- CalibrateAndPickUpTip: follows the source and reads the column with the as-written parser, so tips "A10" to "A12" are picked up at the offset of "A1". The corrected parser `TipNameToXyOffset` is stated and proved beside it but is not wired into the session.
- ToolSensors.BuildPassStep: the duration is stated as `Motion.Duration` of the first mover's distance and speed. The contract of `Motion.Duration` gives duration ≥ 0 and duration × abs(speed) = abs(distance). The quotient itself is not written into this contract, and the error for a zero first speed is not named.

## Findings

| source | as written | input that shows it | evidently intended | confidence | as-written member | corrected member |
|---|---|---|---|---|---|---|
| hardware/opentrons_hardware/scripts/96Head_tip_pick_up_test_script.py:526-544 | the move printed as aspirating the leading air gap drives the plunger down (+10 mm/s) by the trailing gap's travel; the trailing air gap then draws up the leading gap's travel | test `t1000-10ul` (10 µL gaps): the blow-out ends 20 / 15.904 ≈ 1.26 mm past the 71 mm blow-out position | draw up the leading gap before the liquid and the trailing gap after it, so the dispense ends at the bottom and the blow-out at 71 mm | medium, not executed | Head96Script.IntakeMovesAsWritten, Head96Script.AsWrittenOvershootsBlowOut, Head96Script.AsWrittenT1000TenMicrolitres | Head96Script.IntakeMoves, Head96Script.IntakeThenOutputEndsAtBlowOut |
| hardware-testing/hardware_testing/production_qc/pipette_assembly_qc_ot3.py:88 | the column is `int(tip[1])`, only the second character | "A10" and "A12" both map to (0, 0), like "A1"; `num_trials` ≥ 10 generates "A10" | the column is the whole number after the row letter | high, not executed | PipetteAssemblyQc.TipNameToXyOffsetAsWritten, PipetteAssemblyQc.AsWrittenMisplacesTwoDigitColumns | PipetteAssemblyQc.TipNameToXyOffset, PipetteAssemblyQc.GeneratedTipsParse |

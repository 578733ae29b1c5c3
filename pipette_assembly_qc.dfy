/** The pipette assembly QC script: tip names and their offsets in the
    tip rack, the CSV rows it appends, and the labware locations the operator
    calibrates once per run. The OT-3 API, the operator's jogging and the
    pressure fixture are foreign; the API is a `Robot` that records its
    motion requests. */
module PipetteAssemblyQc {
  import opened Common

  datatype QcError = IndexError | ValueError | AssertionError

  /** `FIXTURE_LOCATION_A1_LEFT`. */
  const FixtureLocationA1Left := Point(14.4, 74.5, 71.2)

  /** `FIXTURE_LOCATION_A1_LEFT._replace(x=128 - 14.4)`. */
  const FixtureLocationA1Right := FixtureLocationA1Left.(x := 128.0 - 14.4)

  const TrashHeightMm: real := 45.0

  /** The pitch between tip-rack wells the script assumes, in mm. */
  const WellPitch: real := 9.0

  /** `["A", "B", ..., "H"]`. */
  const TipRackRows: seq<char> := ['A', 'B', 'C', 'D', 'E', 'F', 'G', 'H']

  /** The right fixture differs from the left one in x only. */
  lemma RightFixtureMirrorsLeft()
    ensures FixtureLocationA1Right.y == FixtureLocationA1Left.y
    ensures FixtureLocationA1Right.z == FixtureLocationA1Left.z
    ensures FixtureLocationA1Right.x == 113.6
  {
  }

  /** `tip_rack_rows.index(c)`. */
  function RowIndex(c: char): (r: Result<nat, QcError>)
    ensures r.Success? <==> c in TipRackRows
    ensures r.Success? ==> r.value < 8 && TipRackRows[r.value] == c
    ensures r.Failure? ==> r.error == ValueError
  {
    if 'A' <= c <= 'H' then Success(c as int - 'A' as int) else Failure(ValueError)
  }

  predicate IsDigit(c: char)
  {
    '0' <= c <= '9'
  }

  predicate AllDigits(s: string)
  {
    forall i :: 0 <= i < |s| ==> IsDigit(s[i])
  }

  /** The value of a string of decimal digits. */
  function DecimalValue(s: string): nat
    requires AllDigits(s)
  {
    if s == [] then 0
    else DecimalValue(s[..|s| - 1]) * 10 + (s[|s| - 1] as int - '0' as int)
  }

  /** `int(s)` on ASCII text: a nonempty run of digits, else `ValueError`. */
  function ParseInt(s: string): (r: Result<nat, QcError>)
    ensures r.Success? <==> s != [] && AllDigits(s)
    ensures r.Success? ==> r.value == DecimalValue(s)
    ensures r.Failure? ==> r.error == ValueError
  {
    if s != [] && AllDigits(s) then Success(DecimalValue(s)) else Failure(ValueError)
  }

  /** Reading back the decimal rendering of a number gives the number. */
  lemma {:induction false} DecimalValueOfNatToString(n: nat)
    ensures AllDigits(NatToString(n))
    ensures DecimalValue(NatToString(n)) == n
  {
    if n >= 10 {
      DecimalValueOfNatToString(n / 10);
      var s := NatToString(n);
      assert s == NatToString(n / 10) + [DigitChar(n % 10)];
      assert s[..|s| - 1] == NatToString(n / 10);
    }
  }

  /** The offset of the well at a row index and a one-based column. */
  function WellOffset(row: nat, column: int): Point
  {
    Point((column - 1) as real * WellPitch, row as real * WellPitch, 0.0)
  }

  /** `_tip_name_to_xy_offset` as written: the column is read from the
      second character alone. */
  function TipNameToXyOffsetAsWritten(tip: string): (r: Result<Point, QcError>)
    ensures r.Success? <==> |tip| >= 2 && tip[0] in TipRackRows && IsDigit(tip[1])
    ensures r.Success? ==> r.value == WellOffset(RowIndex(tip[0]).value, tip[1] as int - '0' as int)
    ensures |tip| == 0 ==> r == Failure(IndexError)
    ensures |tip| > 0 && tip[0] !in TipRackRows ==> r == Failure(ValueError)
    ensures |tip| == 1 && tip[0] in TipRackRows ==> r == Failure(IndexError)
    ensures |tip| >= 2 && tip[0] in TipRackRows && !IsDigit(tip[1]) ==> r == Failure(ValueError)
  {
    if |tip| == 0 then Failure(IndexError)
    else match RowIndex(tip[0])
      case Failure(e) => Failure(e)
      case Success(row) =>
        if |tip| < 2 then Failure(IndexError)
        else match ParseInt([tip[1]])
          case Failure(e) => Failure(e)
          case Success(column) =>
            assert [tip[1]][..0] == [];
            assert column == DecimalValue([tip[1]]) == tip[1] as int - '0' as int;
            Success(WellOffset(row, column))
  }

  /** The two-digit columns of a 96-tip rack collide with the one-digit
      ones: "A10" gets the offset of "A1", and "A12" that of "A1" too. */
  lemma AsWrittenMisplacesTwoDigitColumns()
    ensures TipNameToXyOffsetAsWritten("A10") == TipNameToXyOffsetAsWritten("A1")
    ensures TipNameToXyOffsetAsWritten("A12") == TipNameToXyOffsetAsWritten("A1")
    ensures TipNameToXyOffsetAsWritten("A10") == Success(Point(0.0, 0.0, 0.0))
  {
    assert "A10"[1] == '1' && "A12"[1] == '1' && "A1"[1] == '1';
  }

  /** The tip offset reading every character after the row letter as the
      column. */
  function TipNameToXyOffset(tip: string): (r: Result<Point, QcError>)
    ensures r.Success? <==> |tip| >= 2 && tip[0] in TipRackRows && AllDigits(tip[1..])
    ensures r.Success? ==> r.value == WellOffset(RowIndex(tip[0]).value, DecimalValue(tip[1..]))
    ensures |tip| == 0 ==> r == Failure(IndexError)
    ensures |tip| > 0 && tip[0] !in TipRackRows ==> r == Failure(ValueError)
    ensures |tip| >= 1 && tip[0] in TipRackRows && !(|tip| >= 2 && AllDigits(tip[1..])) ==> r == Failure(ValueError)
  {
    if |tip| == 0 then Failure(IndexError)
    else match RowIndex(tip[0])
      case Failure(e) => Failure(e)
      case Success(row) =>
        match ParseInt(tip[1..])
        case Failure(e) => Failure(e)
        case Success(column) => Success(WellOffset(row, column))
  }

  /** `f"{row}{i + 1}"` for a row letter. */
  function TipName(row: char, i: nat): string
  {
    [row] + NatToString(i + 1)
  }

  /** The tips of one row for `n` trials: `[f"{row}{i + 1}" for i in range(n)]`. */
  function TipsOfRow(row: char, n: nat): (tips: seq<string>)
    ensures |tips| == n
    ensures forall i :: 0 <= i < n ==> tips[i] == TipName(row, i)
  {
    seq(n, i requires 0 <= i < n => TipName(row, i))
  }

  /** `tips_liquid`: A1..An. */
  function TipsLiquid(n: nat): seq<string>
  {
    TipsOfRow('A', n)
  }

  /** `tips_fixture`: B1..Bn. */
  function TipsFixture(n: nat): seq<string>
  {
    TipsOfRow('B', n)
  }

  /** The i-th tip of a row sits i pitches to the right of column 1, at the
      row's y offset: every generated name parses, and distinct tips get
      distinct offsets. */
  lemma {:induction false} GeneratedTipsParse(row: char, n: nat, i: nat)
    requires row in TipRackRows && i < n
    ensures TipNameToXyOffset(TipsOfRow(row, n)[i]).Success?
    ensures TipNameToXyOffset(TipsOfRow(row, n)[i]).value
      == Point(i as real * WellPitch, RowIndex(row).value as real * WellPitch, 0.0)
  {
    var tip := TipName(row, i);
    assert tip[1..] == NatToString(i + 1);
    DecimalValueOfNatToString(i + 1);
  }

  /** The liquid tips are in row A and the fixture tips in row B, one
      column per trial. */
  lemma TipListsCoverRowsAAndB(n: nat, i: nat)
    requires i < n
    ensures TipNameToXyOffset(TipsLiquid(n)[i]) == Success(Point(i as real * WellPitch, 0.0, 0.0))
    ensures TipNameToXyOffset(TipsFixture(n)[i]) == Success(Point(i as real * WellPitch, WellPitch, 0.0))
  {
    assert 'A' in TipRackRows && RowIndex('A') == Success(0);
    assert 'B' in TipRackRows && RowIndex('B') == Success(1);
    GeneratedTipsParse('A', n, i);
    GeneratedTipsParse('B', n, i);
  }

  /** `",".join(items)`. */
  function JoinWith(items: seq<string>, sep: char): string
  {
    if items == [] then ""
    else if |items| == 1 then items[0]
    else items[0] + [sep] + JoinWith(items[1..], sep)
  }

  /** The index of the first `c` in `s`. */
  function FirstIndex(s: string, c: char): (i: nat)
    requires c in s
    ensures i < |s| && s[i] == c && c !in s[..i]
  {
    if s[0] == c then 0
    else
      assert c in s[1..] by {
        var k :| 0 <= k < |s| && s[k] == c;
        assert s[1..][k - 1] == c;
      }
      var j := FirstIndex(s[1..], c);
      assert s[..j + 1] == [s[0]] + s[1..][..j];
      j + 1
  }

  /** `s.split(sep)`. */
  function SplitOn(s: string, sep: char): (parts: seq<string>)
    ensures |parts| >= 1
    decreases |s|
  {
    if sep !in s then [s]
    else
      var i := FirstIndex(s, sep);
      [s[..i]] + SplitOn(s[i + 1..], sep)
  }

  /** Splitting a join at its separator gives the items back when none of
      them contains the separator. */
  lemma {:induction false} SplitJoin(items: seq<string>, sep: char)
    requires |items| >= 1
    requires forall k :: 0 <= k < |items| ==> sep !in items[k]
    ensures SplitOn(JoinWith(items, sep), sep) == items
  {
    if |items| > 1 {
      var rest := JoinWith(items[1..], sep);
      var s := items[0] + [sep] + rest;
      assert s[|items[0]|] == sep;
      assert s[..|items[0]|] == items[0];
      var i := FirstIndex(s, sep);
      assert i == |items[0]|;
      assert s[i + 1..] == rest;
      SplitJoin(items[1..], sep);
    }
  }

  /** The line `_append_csv_data` writes: the elapsed seconds, then the data,
      each already rendered by `str`, comma-separated, newline-terminated. */
  function CsvLine(elapsed: string, data: seq<string>): (line: string)
    ensures |line| >= 1 && line[|line| - 1] == '\n'
  {
    JoinWith([elapsed] + data, ',') + "\n"
  }

  /** A CSV line puts the time in the first column and the data after it. */
  lemma CsvLineFields(elapsed: string, data: seq<string>)
    requires ',' !in elapsed && forall k :: 0 <= k < |data| ==> ',' !in data[k]
    ensures var line := CsvLine(elapsed, data);
      SplitOn(line[..|line| - 1], ',') == [elapsed] + data
  {
    var items := [elapsed] + data;
    var line := CsvLine(elapsed, data);
    assert line[..|line| - 1] == JoinWith(items, ',');
    forall k | 0 <= k < |items|
      ensures ',' !in items[k]
    {
      if k > 0 {
        assert items[k] == data[k - 1];
      }
    }
    SplitJoin(items, ',');
  }

  /** `LabwareLocations`: each entry unknown (`None`) until set. */
  datatype LabwareLocations = LabwareLocations(
    trash: Option<Point>, tipRack: Option<Point>, reservoir: Option<Point>, fixture: Option<Point>)

  const NoLocations := LabwareLocations(None, None, None, None)

  /** `_get_ideal_labware_locations`, given the theoretical A1 positions of
      the tip rack and reservoir and the trash slot's calibration square. */
  function IdealLabwareLocations(tipRackA1: Point, reservoirA1: Point, trashSquare: Point): (l: LabwareLocations)
    ensures l.tipRack == Some(tipRackA1) && l.reservoir == Some(reservoirA1)
    ensures l.trash == Some(trashSquare.Plus(ZOnly(TrashHeightMm)))
    ensures l.fixture == Some(FixtureLocationA1Left)
  {
    LabwareLocations(
      trash := Some(trashSquare.Plus(ZOnly(TrashHeightMm))),
      tipRack := Some(tipRackA1),
      reservoir := Some(reservoirA1),
      fixture := Some(Point(14.4, 74.5, 71.2)))
  }

  /** A motion request made to the OT-3 API. */
  datatype RobotAction =
    | MoveToArched(target: Point, safeHeight: Option<real>)
    | JogMount
    | MoveRel(delta: Point)
    | PickUpTip(tipLength: real)
    | DropTip
    | Home

  /** The OT-3 API: every motion request is recorded. */
  /** The moves that pick up `tip` from a rack whose A1 is at `rack`: an
      arched move 5 mm above the well, then the pick-up; nothing when the
      tip name does not parse. */
  function PickUpAt(rack: Point, tip: string, tipLength: real): (acts: seq<RobotAction>)
    ensures TipNameToXyOffsetAsWritten(tip).Failure? <==> acts == []
    ensures TipNameToXyOffsetAsWritten(tip).Success? ==>
      var pos := rack.Plus(TipNameToXyOffsetAsWritten(tip).value);
      acts == [MoveToArched(pos, Some(pos.z + 5.0)), PickUpTip(tipLength)]
  {
    match TipNameToXyOffsetAsWritten(tip)
    case Failure(_) => []
    case Success(offset) =>
      var pos := rack.Plus(offset);
      [MoveToArched(pos, Some(pos.z + 5.0)), PickUpTip(tipLength)]
  }

  class Robot {
    var actions: seq<RobotAction>

    constructor ()
      ensures actions == []
    {
      actions := [];
    }

    method Do(a: RobotAction)
      modifies this
      ensures actions == old(actions) + [a]
    {
      actions := actions + [a];
    }
  }

  /** The script's two module-level location records. */
  class QcSession {
    var ideal: LabwareLocations
    var calibrated: LabwareLocations

    constructor ()
      ensures ideal == NoLocations && calibrated == NoLocations
    {
      ideal := NoLocations;
      calibrated := NoLocations;
    }

    /** The start of `_main`: fresh ideal locations, nothing calibrated. */
    method ResetForMain(tipRackA1: Point, reservoirA1: Point, trashSquare: Point)
      modifies this
      ensures ideal == IdealLabwareLocations(tipRackA1, reservoirA1, trashSquare)
      ensures calibrated == NoLocations
    {
      ideal := IdealLabwareLocations(tipRackA1, reservoirA1, trashSquare);
      calibrated := NoLocations;
    }

    /** `_calibrate_and_pick_up_tip`: the tip rack is calibrated on first
        use (the operator jogs to `jogged`), then the tip is picked up at its
        offset from the calibrated A1, the offset read by the parser as
        written. */
    method CalibrateAndPickUpTip(robot: Robot, tip: string, tipLength: real, jogged: Point)
      returns (r: Outcome<QcError>)
      modifies this, robot
      ensures ideal == old(ideal)
      ensures calibrated == old(calibrated).(tipRack := calibrated.tipRack)
      ensures old(calibrated.tipRack).None? && old(ideal.tipRack).None? ==>
        r == Fail(AssertionError) && calibrated == old(calibrated) && robot.actions == old(robot.actions)
      ensures old(calibrated.tipRack).None? && old(ideal.tipRack).Some? ==>
        calibrated.tipRack == Some(jogged)
        && robot.actions == old(robot.actions)
          + [MoveToArched(old(ideal.tipRack).value.Plus(ZOnly(10.0)), None), JogMount, MoveRel(ZOnly(5.0))]
          + PickUpAt(jogged, tip, tipLength)
      ensures old(calibrated.tipRack).Some? ==>
        calibrated.tipRack == old(calibrated.tipRack)
        && robot.actions == old(robot.actions) + PickUpAt(old(calibrated.tipRack).value, tip, tipLength)
      ensures r.Pass? <==>
        (old(calibrated.tipRack).Some? || old(ideal.tipRack).Some?) && TipNameToXyOffsetAsWritten(tip).Success?
      ensures (old(calibrated.tipRack).Some? || old(ideal.tipRack).Some?) && r.Fail? ==>
        r == Fail(TipNameToXyOffsetAsWritten(tip).error)
    {
      if calibrated.tipRack.None? {
        if ideal.tipRack.None? {
          return Fail(AssertionError);
        }
        robot.Do(MoveToArched(ideal.tipRack.value.Plus(ZOnly(10.0)), None));
        robot.Do(JogMount);
        calibrated := calibrated.(tipRack := Some(jogged));
        robot.Do(MoveRel(ZOnly(5.0)));
      }
      var tipOffset := TipNameToXyOffsetAsWritten(tip);
      if tipOffset.Failure? {
        return Fail(tipOffset.error);
      }
      var tipPos := calibrated.tipRack.value.Plus(tipOffset.value);
      robot.Do(MoveToArched(tipPos, Some(tipPos.z + 5.0)));
      robot.Do(PickUpTip(tipLength));
      r := Pass;
    }

    /** `_calibrate_and_move_to_liquid`. */
    method CalibrateAndMoveToLiquid(robot: Robot, jogged: Point) returns (r: Outcome<QcError>)
      modifies this, robot
      ensures ideal == old(ideal)
      ensures calibrated == old(calibrated).(reservoir := calibrated.reservoir)
      ensures old(calibrated.reservoir).Some? ==>
        r.Pass? && calibrated.reservoir == old(calibrated.reservoir)
        && robot.actions == old(robot.actions) + [MoveToArched(old(calibrated.reservoir).value, None)]
      ensures old(calibrated.reservoir).None? && old(ideal.reservoir).None? ==>
        r == Fail(AssertionError) && calibrated == old(calibrated) && robot.actions == old(robot.actions)
      ensures old(calibrated.reservoir).None? && old(ideal.reservoir).Some? ==>
        r.Pass? && calibrated.reservoir == Some(jogged)
        && robot.actions == old(robot.actions) + [MoveToArched(old(ideal.reservoir).value.Plus(ZOnly(10.0)), None), JogMount]
    {
      if calibrated.reservoir.None? {
        if ideal.reservoir.None? {
          return Fail(AssertionError);
        }
        robot.Do(MoveToArched(ideal.reservoir.value.Plus(ZOnly(10.0)), None));
        robot.Do(JogMount);
        calibrated := calibrated.(reservoir := Some(jogged));
      } else {
        robot.Do(MoveToArched(calibrated.reservoir.value, None));
      }
      r := Pass;
    }

    /** `_calibrate_and_move_to_fixture`. */
    method CalibrateAndMoveToFixture(robot: Robot, jogged: Point) returns (r: Outcome<QcError>)
      modifies this, robot
      ensures ideal == old(ideal)
      ensures calibrated == old(calibrated).(fixture := calibrated.fixture)
      ensures old(calibrated.fixture).Some? ==>
        r.Pass? && calibrated.fixture == old(calibrated.fixture)
        && robot.actions == old(robot.actions) + [MoveToArched(old(calibrated.fixture).value, None)]
      ensures old(calibrated.fixture).None? && old(ideal.fixture).None? ==>
        r == Fail(AssertionError) && calibrated == old(calibrated) && robot.actions == old(robot.actions)
      ensures old(calibrated.fixture).None? && old(ideal.fixture).Some? ==>
        r.Pass? && calibrated.fixture == Some(jogged)
        && robot.actions == old(robot.actions) + [MoveToArched(old(ideal.fixture).value.Plus(ZOnly(10.0)), None), JogMount]
    {
      if calibrated.fixture.None? {
        if ideal.fixture.None? {
          return Fail(AssertionError);
        }
        robot.Do(MoveToArched(ideal.fixture.value.Plus(ZOnly(10.0)), None));
        robot.Do(JogMount);
        calibrated := calibrated.(fixture := Some(jogged));
      } else {
        robot.Do(MoveToArched(calibrated.fixture.value, None));
      }
      r := Pass;
    }

    /** `_drop_tip_in_trash`. */
    method DropTipInTrash(robot: Robot) returns (r: Outcome<QcError>)
      modifies robot
      ensures ideal.trash.None? ==> r == Fail(AssertionError) && robot.actions == old(robot.actions)
      ensures ideal.trash.Some? ==>
        r.Pass? && robot.actions == old(robot.actions) + [MoveToArched(ideal.trash.value, Some(ideal.trash.value.z + 20.0)), DropTip]
    {
      if ideal.trash.None? {
        return Fail(AssertionError);
      }
      robot.Do(MoveToArched(ideal.trash.value, Some(ideal.trash.value.z + 20.0)));
      robot.Do(DropTip);
      r := Pass;
    }
  }

  /** After `_main`'s reset, the first visit to the reservoir calibrates it
      and the second goes straight to the calibrated location without
      asking the operator again. */
  method CalibrateOnceThenReuse(session: QcSession, robot: Robot, tipRackA1: Point, reservoirA1: Point,
                                trashSquare: Point, firstJog: Point, secondJog: Point)
    modifies session, robot
    ensures session.calibrated.reservoir == Some(firstJog)
    ensures robot.actions == old(robot.actions)
      + [MoveToArched(reservoirA1.Plus(ZOnly(10.0)), None), JogMount, MoveToArched(firstJog, None)]
  {
    session.ResetForMain(tipRackA1, reservoirA1, trashSquare);
    var first := session.CalibrateAndMoveToLiquid(robot, firstJog);
    var second := session.CalibrateAndMoveToLiquid(robot, secondJog);
  }
}

/**
 * old.py as a whole: the CSV header row, one CSV row per sensor whose
 * historic-data request succeeds, and the Core utilisation summary appended
 * after the last sensor.  The output file is the list of rows written to it;
 * the sensor list and the responses are inputs, and `pct` stands for
 * `math.ceil(numpy.percentile(..))`.
 */
module OldReport {
  import opened Py
  import opened PyStr
  import opened Tags
  import opened Traffic
  import opened Segments
  import opened Rows

  /** One CSV row. */
  type Line = seq<Value>

  /** The output CSV file, as the rows it holds. */
  class CsvFile {
    var lines: seq<Line>

    constructor ()
      ensures lines == []
    {
      lines := [];
    }

    /** `out_csv(row, outfile, mode)`: mode 'w' truncates the file before
        writing the row, mode 'a' appends it. */
    method OutCsv(row: Line, truncate: bool)
      modifies this
      ensures lines == (if truncate then [] else old(lines)) + [row]
    {
      if truncate {
        lines := [row];
      } else {
        lines := lines + [row];
      }
    }
  }

  // ---------------------------------------------------------------------------
  // Header row
  // ---------------------------------------------------------------------------

  /** `list.insert(i, x)` */
  function Insert(xs: seq<string>, i: nat, x: string): (ys: seq<string>)
    requires i <= |xs|
    ensures |ys| == |xs| + 1 && ys[i] == x
    ensures forall j :: 0 <= j < i ==> ys[j] == xs[j]
    ensures forall j :: i < j < |ys| ==> ys[j] == xs[j - 1]
  {
    xs[..i] + [x] + xs[i..]
  }

  /** The header row for percentile `n`, with the two debug columns after
      Location when `debug` is set. */
  function Headers(n: int, debug: bool): seq<string> {
    ["Location"] + (if debug then ["Device", "Device id"] else []) +
    ["Max Traffic (mbps) (" + IntToString(n) + "%)", "Choke Point", "Choke Point Limit (mbps)",
     "Circuit Max Limit (mbps)", "Choke Point Utilization", "Circuit Utilization", "Action"]
  }

  /** The header list of old.py: `int(args.percentile)` raises ValueError on a
      percentile that is not an integer; in debug mode 'Device id' and then
      'Device' are inserted at position 1. */
  method BuildHeaders(percentile: string, debug: bool) returns (r: Result<seq<string>>)
    ensures ParseInt(percentile).None? ==> r == Err(ValueError)
    ensures ParseInt(percentile).Some? ==> r == Ok(Headers(ParseInt(percentile).value, debug))
  {
    var n := ParseInt(percentile);
    if n.None? {
      return Err(ValueError);
    }
    var headers := ["Location", "Max Traffic (mbps) (" + IntToString(n.value) + "%)",
                    "Choke Point", "Choke Point Limit (mbps)", "Circuit Max Limit (mbps)",
                    "Choke Point Utilization", "Circuit Utilization", "Action"];
    if debug {
      headers := Insert(headers, 1, "Device id");
      headers := Insert(headers, 1, "Device");
    }
    assert headers == Headers(n.value, debug);
    return Ok(headers);
  }

  /** The header row: Location, the debug columns, Max Traffic with the
      percentile, the limits, the two utilisations, then Action. */
  lemma {:induction false} HeadersLayout(n: int, debug: bool)
    ensures |Headers(n, debug)| == MaxCol(debug) + 7
    ensures Headers(n, debug)[|Headers(n, debug)| - 1] == "Action"
    ensures Headers(n, debug)[0] == "Location"
    ensures debug ==> Headers(n, debug)[1] == "Device" && Headers(n, debug)[2] == "Device id"
    ensures Headers(n, debug)[MaxCol(debug)] == "Max Traffic (mbps) (" + IntToString(n) + "%)"
    ensures Headers(n, debug)[MaxCol(debug) + 4] == "Choke Point Utilization"
    ensures Headers(n, debug)[MaxCol(debug) + 5] == "Circuit Utilization"
  {
  }

  /** Each row cell sits under its header: the row is one cell shorter than the
      header row, whose last column, Action, is never filled, and the choke point
      utilisation comes before the circuit utilisation in both. */
  lemma {:induction false} RowUnderHeaders(p: Props, s: Sensor, debug: bool, tin: seq<real>, tout: seq<real>,
                                           pct: seq<real> --> int, n: int)
    requires PctTotal(pct)
    requires OldCells(p, s, debug, tin, tout, pct).Ok?
    ensures |OldCells(p, s, debug, tin, tout, pct).value.cells| + 1 == |Headers(n, debug)|
    ensures Headers(n, debug)[|Headers(n, debug)| - 1] == "Action"
    ensures Headers(n, debug)[0] == "Location" && OldCells(p, s, debug, tin, tout, pct).value.cells[0] == LocationCell(p)
    ensures debug ==> Headers(n, debug)[1] == "Device" &&
                      OldCells(p, s, debug, tin, tout, pct).value.cells[1] == VStr(DeviceName(s.device))
    ensures debug ==> Headers(n, debug)[2] == "Device id" &&
                      OldCells(p, s, debug, tin, tout, pct).value.cells[2] == VInt(s.objid)
    ensures Headers(n, debug)[MaxCol(debug)] == "Max Traffic (mbps) (" + IntToString(n) + "%)"
    ensures Headers(n, debug)[MaxCol(debug) + 4] == "Choke Point Utilization" &&
            OldCells(p, s, debug, tin, tout, pct).value.cells[MaxCol(debug) + 4] ==
              UtilCell(MaxCell(Series(p, tin, tout), pct).1, p, "kpi_chokelimit").value
    ensures Headers(n, debug)[MaxCol(debug) + 5] == "Circuit Utilization" &&
            OldCells(p, s, debug, tin, tout, pct).value.cells[MaxCol(debug) + 5] ==
              UtilCell(MaxCell(Series(p, tin, tout), pct).1, p, "kpi_cktmaxlimit").value
  {
    OldCellsLayout(p, s, debug, tin, tout, pct);
    HeadersLayout(n, debug);
  }

  // ---------------------------------------------------------------------------
  // The sensor loop
  // ---------------------------------------------------------------------------

  /** What an iteration of `for sensor in sensors:` has to work with: no 200
      response (the sensor is skipped), or the row derived from the response. */
  datatype Outcome = NotFetched | Derived(row: Result<RowOut>)

  function OutcomeOf(s: Sensor, f: Fetch, debug: bool, pct: seq<real> --> int): Outcome
    requires PctTotal(pct)
  {
    if f.status != 200 then NotFetched else Derived(OldRow(s, f.histdata, debug, pct))
  }

  /** The outcomes of `sensors` in loop order, given the responses `api`. */
  function Outcomes(sensors: seq<Sensor>, api: Sensor -> Fetch, debug: bool, pct: seq<real> --> int): (os: seq<Outcome>)
    requires PctTotal(pct)
    ensures |os| == |sensors|
    decreases |sensors|
  {
    if sensors == [] then []
    else Outcomes(sensors[..|sensors| - 1], api, debug, pct) +
         [OutcomeOf(sensors[|sensors| - 1], api(sensors[|sensors| - 1]), debug, pct)]
  }

  lemma {:induction false} OutcomesAt(sensors: seq<Sensor>, api: Sensor -> Fetch, debug: bool, pct: seq<real> --> int, k: int)
    requires PctTotal(pct)
    requires 0 <= k < |sensors|
    ensures Outcomes(sensors, api, debug, pct)[k] == OutcomeOf(sensors[k], api(sensors[k]), debug, pct)
    decreases |sensors|
  {
    if k < |sensors| - 1 {
      OutcomesAt(sensors[..|sensors| - 1], api, debug, pct, k);
    }
  }

  lemma {:induction false} OutcomesPrefix(sensors: seq<Sensor>, api: Sensor -> Fetch, debug: bool, pct: seq<real> --> int, n: nat)
    requires PctTotal(pct)
    requires n <= |sensors|
    ensures Outcomes(sensors, api, debug, pct)[..n] == Outcomes(sensors[..n], api, debug, pct)
    decreases |sensors|
  {
    if n < |sensors| {
      var init := sensors[..|sensors| - 1];
      assert init[..n] == sensors[..n];
      OutcomesPrefix(init, api, debug, pct, n);
    } else {
      assert sensors[..n] == sensors;
    }
  }

  /** The script state the loop carries: the file's rows, `summary_data`, and
      the exception that ended the script, if any. */
  datatype Pass = Pass(lines: seq<Line>, records: seq<CoreRecord>, crashed: Option<PyError>)

  /** One iteration: a failed fetch is skipped silently; a row that raises ends
      the script; otherwise the row is appended to the file and the sensor's
      record (if any) to `summary_data`. */
  function Visit(p: Pass, o: Outcome): Pass {
    if p.crashed.Some? || o.NotFetched? then p
    else
      match o.row
      case Err(e) => p.(crashed := Some(e))
      case Ok(r) => Pass(p.lines + [r.cells], p.records + RecordList(r.record), None)
  }

  /** The loop over the outcomes, on a file that already holds `lines0`. */
  function OldPass(lines0: seq<Line>, os: seq<Outcome>): Pass
    decreases |os|
  {
    if os == [] then Pass(lines0, [], None)
    else Visit(OldPass(lines0, os[..|os| - 1]), os[|os| - 1])
  }

  lemma {:induction false} OldPassCrashSticky(lines0: seq<Line>, os: seq<Outcome>, n: nat)
    requires n <= |os|
    requires OldPass(lines0, os[..n]).crashed.Some?
    ensures OldPass(lines0, os) == OldPass(lines0, os[..n])
    decreases |os|
  {
    if n < |os| {
      var init := os[..|os| - 1];
      assert init[..n] == os[..n];
      OldPassCrashSticky(lines0, init, n);
    } else {
      assert os[..n] == os;
    }
  }

  /** old.py's sensor loop. Each sensor's fetch and row derivation are values
      (`Outcomes`); the loop appends the rows in order and stops at the first row
      that raises. */
  method SensorLoop(out: CsvFile, sensors: seq<Sensor>, api: Sensor -> Fetch, debug: bool, pct: seq<real> --> int)
    returns (summaryData: seq<CoreRecord>, crashed: Option<PyError>)
    requires PctTotal(pct)
    modifies out
    ensures out.lines == OldPass(old(out.lines), Outcomes(sensors, api, debug, pct)).lines
    ensures summaryData == OldPass(old(out.lines), Outcomes(sensors, api, debug, pct)).records
    ensures crashed == OldPass(old(out.lines), Outcomes(sensors, api, debug, pct)).crashed
  {
    var os := Outcomes(sensors, api, debug, pct);
    summaryData := [];
    crashed := None;
    var i := 0;
    while i < |os|
      invariant 0 <= i <= |os|
      invariant OldPass(old(out.lines), os[..i]) == Pass(out.lines, summaryData, None)
      invariant crashed.None?
    {
      assert os[..i + 1][..i] == os[..i];
      summaryData, crashed := VisitSensor(out, os[i], summaryData);
      if crashed.Some? {
        OldPassCrashSticky(old(out.lines), os, i + 1);
        return;
      }
      i := i + 1;
    }
    assert os[..i] == os;
  }

  /** The body of the loop for one sensor: nothing for a failed fetch; for a
      derived row, collect its record and append the row to the file. */
  method VisitSensor(out: CsvFile, o: Outcome, records: seq<CoreRecord>)
    returns (summaryData: seq<CoreRecord>, crashed: Option<PyError>)
    modifies out
    ensures Visit(Pass(old(out.lines), records, None), o) == Pass(out.lines, summaryData, crashed)
  {
    summaryData := records;
    crashed := None;
    if o.Derived? {
      if o.row.Err? {
        crashed := Some(o.row.error);
        return;
      }
      summaryData := summaryData + RecordList(o.row.value.record);
      out.OutCsv(o.row.value.cells, false);
    }
  }

  /** Reference: the rows of the fetched sensors, in order. */
  function FetchedLines(os: seq<Outcome>): seq<Line>
    decreases |os|
  {
    if os == [] then []
    else FetchedLines(os[..|os| - 1]) +
         (if os[|os| - 1].Derived? && os[|os| - 1].row.Ok? then [os[|os| - 1].row.value.cells] else [])
  }

  /** Reference: the summary records of the fetched sensors, in order. */
  function FetchedRecords(os: seq<Outcome>): seq<CoreRecord>
    decreases |os|
  {
    if os == [] then []
    else FetchedRecords(os[..|os| - 1]) +
         (if os[|os| - 1].Derived? && os[|os| - 1].row.Ok? then RecordList(os[|os| - 1].row.value.record) else [])
  }

  /** The script survives the loop exactly when every fetched sensor's row can be
      built; then the file holds one row per fetched sensor, in order, after
      what it held before, and `summary_data` their records. */
  lemma {:induction false} OldPassComplete(lines0: seq<Line>, os: seq<Outcome>)
    ensures OldPass(lines0, os).crashed.None? <==> forall k :: 0 <= k < |os| && os[k].Derived? ==> os[k].row.Ok?
    ensures OldPass(lines0, os).crashed.None? ==>
      OldPass(lines0, os).lines == lines0 + FetchedLines(os) &&
      OldPass(lines0, os).records == FetchedRecords(os)
    decreases |os|
  {
    if os != [] {
      var init := os[..|os| - 1];
      OldPassComplete(lines0, init);
      assert forall k :: 0 <= k < |init| ==> init[k] == os[k];
    }
  }

  /** Outcome `k` is the first fetched row that raises, the pass ended with its
      exception, and the file holds the rows of the sensors before it. */
  predicate FirstCrash(lines0: seq<Line>, os: seq<Outcome>, k: int) {
    && 0 <= k < |os| && os[k].Derived? && os[k].row.Err?
    && (forall j :: 0 <= j < k && os[j].Derived? ==> os[j].row.Ok?)
    && OldPass(lines0, os).crashed == Some(os[k].row.error)
    && OldPass(lines0, os).lines == lines0 + FetchedLines(os[..k])
  }

  /** The first row that raises ends the script with its exception; the rows
      of the sensors before it stay in the file. */
  lemma {:induction false} OldPassCrash(lines0: seq<Line>, os: seq<Outcome>)
    requires OldPass(lines0, os).crashed.Some?
    ensures exists k :: FirstCrash(lines0, os, k)
    decreases |os|
  {
    var n := |os|;
    var init := os[..n - 1];
    if OldPass(lines0, init).crashed.Some? {
      OldPassCrash(lines0, init);
      var k :| FirstCrash(lines0, init, k);
      assert init[..k] == os[..k] && init[k] == os[k];
      forall j | 0 <= j < k && os[j].Derived?
        ensures os[j].row.Ok?
      {
        assert init[j] == os[j];
      }
      assert FirstCrash(lines0, os, k);
    } else {
      OldPassComplete(lines0, init);
      assert os[..n - 1] == init;
      forall j | 0 <= j < n - 1 && os[j].Derived?
        ensures os[j].row.Ok?
      {
        assert init[j] == os[j];
      }
      assert FirstCrash(lines0, os, n - 1);
    }
  }

  /** Every record in `summary_data` comes from a fetched row, so it names a
      Core segment. */
  lemma {:induction false} OldSummaryCore(sensors: seq<Sensor>, api: Sensor -> Fetch, debug: bool, pct: seq<real> --> int)
    requires PctTotal(pct)
    ensures forall r :: r in FetchedRecords(Outcomes(sensors, api, debug, pct)) ==> Contains(r.segment, "Core")
    decreases |sensors|
  {
    if sensors != [] {
      var init := sensors[..|sensors| - 1];
      var s := sensors[|sensors| - 1];
      var os := Outcomes(sensors, api, debug, pct);
      OldSummaryCore(init, api, debug, pct);
      assert os[..|os| - 1] == Outcomes(init, api, debug, pct);
      var o := os[|os| - 1];
      var added := if o.Derived? && o.row.Ok? then RecordList(o.row.value.record) else [];
      assert FetchedRecords(os) == FetchedRecords(Outcomes(init, api, debug, pct)) + added;
      if o.Derived? && o.row.Ok? {
        assert o.row == OldRow(s, api(s).histdata, debug, pct);
        OldRowCore(s, api(s).histdata, debug, pct);
      }
      assert forall r :: r in added ==> Contains(r.segment, "Core");
    }
  }

  /** A record of old.py's row names a Core segment. */
  lemma {:induction false} OldRowCore(s: Sensor, histdata: seq<Block>, debug: bool, pct: seq<real> --> int)
    requires PctTotal(pct)
    requires OldRow(s, histdata, debug, pct).Ok?
    ensures OldRow(s, histdata, debug, pct).value.record.Some? ==>
      Contains(OldRow(s, histdata, debug, pct).value.record.value.segment, "Core")
  {
    var p := ExtractStrict(s.tags).value;
    var tin := SkipScaled(histdata, TrafficIn).value;
    var tout := SkipScaled(histdata, TrafficOut).value;
    OldCellsOutcome(p, s, debug, tin, tout, pct);
  }

  // ---------------------------------------------------------------------------
  // The Core utilisation summary
  // ---------------------------------------------------------------------------

  /** The blank row, the title and the column heads written after the loop. */
  const SummaryHead: seq<Line> :=
    [[], [VStr("Core Utilization Summary")], [VStr("Core"), VStr("Bandwidth"), VStr("Max Capacity"), VStr("Utilization")]]

  /** `[segment, segment_bandwidth, segment_limit, saturation]` */
  function SegmentLine(row: SegmentRow): Line {
    [VStr(row.segment), VInt(row.bandwidth), VInt(row.limit), VReal(row.saturation)]
  }

  function SegmentLines(rows: seq<SegmentRow>): (ls: seq<Line>)
    ensures |ls| == |rows|
    ensures forall i :: 0 <= i < |rows| ==> ls[i] == SegmentLine(rows[i])
  {
    seq(|rows|, i requires 0 <= i < |rows| => SegmentLine(rows[i]))
  }

  /** `['Total:', segment_bandwidth_total, segment_capacity_total, segment_saturation]` */
  function TotalLine(s: Summary): Line {
    [VStr("Total:"), VInt(s.bandwidthTotal), VInt(s.capacityTotal), VReal(s.saturation)]
  }

  /** The file `lines` is `lines0` with the summary head and the rows of the
      first `j` segments written, all of which were summed without error. */
  predicate WrittenThrough(lines0: seq<Line>, lines: seq<Line>, rs: seq<CoreRecord>, order: seq<string>, j: int) {
    && 0 <= j <= |order|
    && SegmentRows(rs, order[..j], 0).Ok?
    && lines == lines0 + SummaryHead + SegmentLines(SegmentRows(rs, order[..j], 0).value.rows)
  }

  lemma {:induction false} SegmentLinesSnoc(rows: seq<SegmentRow>, row: SegmentRow)
    ensures SegmentLines(rows + [row]) == SegmentLines(rows) + [SegmentLine(row)]
  {
  }

  /** The file after the summary part of old.py is written behind `lines0`: the
      head rows, the segment rows and the Total row, or, when the aggregation
      raises, the head rows and the rows of the segments summed before that. */
  function SummaryFile(lines0: seq<Line>, rs: seq<CoreRecord>, order: seq<string>): seq<Line> {
    match Aggregate(rs, order)
    case Ok(sum) => lines0 + SummaryHead + SegmentLines(sum.rows) + [TotalLine(sum)]
    case Err(_) => lines0 + SummaryHead + SegmentLines(DoneRows(rs, order, 0))
  }

  /** The summary is written behind what the file already holds. */
  lemma {:induction false} SummaryFileKeeps(lines0: seq<Line>, rs: seq<CoreRecord>, order: seq<string>)
    ensures |lines0| <= |SummaryFile(lines0, rs, order)|
    ensures SummaryFile(lines0, rs, order)[..|lines0|] == lines0
  {
    var tail := if Aggregate(rs, order).Ok? then
                  SummaryHead + SegmentLines(Aggregate(rs, order).value.rows) + [TotalLine(Aggregate(rs, order).value)]
                else SummaryHead + SegmentLines(DoneRows(rs, order, 0));
    assert SummaryFile(lines0, rs, order) == lines0 + tail;
  }

  /** The summary part of old.py: the head rows, one row per segment of `order`,
      then the Total row. An exception leaves the rows already written: those of
      the first `written` segments. */
  method WriteSummary(out: CsvFile, rs: seq<CoreRecord>, order: seq<string>) returns (r: Result<Summary>, ghost written: nat)
    modifies out
    ensures r == Aggregate(rs, order)
    ensures out.lines == SummaryFile(old(out.lines), rs, order)
    ensures r.Ok? ==> out.lines == old(out.lines) + SummaryHead + SegmentLines(r.value.rows) + [TotalLine(r.value)]
    ensures r.Err? ==> WrittenThrough(old(out.lines), out.lines, rs, order, written)
  {
    out.OutCsv([], false);
    out.OutCsv([VStr("Core Utilization Summary")], false);
    out.OutCsv([VStr("Core"), VStr("Bandwidth"), VStr("Max Capacity"), VStr("Utilization")], false);
    ghost var head := out.lines;
    assert head == old(out.lines) + SummaryHead;
    var acc;
    acc, written := WriteSegmentRows(out, rs, order);
    if acc.Err? {
      DoneRowsAt(rs, order, 0, written);
      return Err(acc.error), written;
    }
    assert order[..written] == order;
    assert out.lines == head + SegmentLines(acc.value.rows);
    if acc.value.capacityTotal == 0 {
      DoneRowsOk(rs, order, 0);
      return Err(ZeroDivisionError), written;
    }
    var segmentSaturation := acc.value.bandwidthTotal as real / acc.value.capacityTotal as real;
    r := Ok(Summary(acc.value.rows, acc.value.bandwidthTotal, acc.value.capacityTotal, segmentSaturation));
    out.OutCsv(TotalLine(r.value), false);
  }

  /** The outer loop `for segment in segments:`, writing one row per segment; on
      an exception the rows of the first `written` segments are in the file. */
  method WriteSegmentRows(out: CsvFile, rs: seq<CoreRecord>, order: seq<string>) returns (r: Result<Accum>, ghost written: nat)
    modifies out
    ensures r == SegmentRows(rs, order, 0)
    ensures written <= |order| && SegmentRows(rs, order[..written], 0).Ok?
    ensures out.lines == old(out.lines) + SegmentLines(SegmentRows(rs, order[..written], 0).value.rows)
    ensures r.Ok? ==> written == |order|
    ensures r.Err? ==> written < |order| && SegmentRows(rs, order[..written + 1], 0).Err?
  {
    var acc := Accum([], 0, 0);
    var i := 0;
    while i < |order|
      invariant 0 <= i <= |order|
      invariant SegmentRows(rs, order[..i], 0) == Ok(acc)
      invariant out.lines == old(out.lines) + SegmentLines(acc.rows)
    {
      assert order[..i + 1][..i] == order[..i];
      var next := WriteSegment(out, acc, rs, order[i]);
      if next.Err? {
        SegmentRowsErrSticky(rs, order, 0, i + 1);
        return Err(next.error), i;
      }
      SegmentLinesSnoc(acc.rows, next.value.rows[|acc.rows|]);
      assert next.value.rows == acc.rows + [next.value.rows[|acc.rows|]];
      acc := next.value;
      i := i + 1;
    }
    assert order[..i] == order;
    return Ok(acc), i;
  }

  /** One iteration of `for segment in segments:`: sum the segment, divide,
      add to the running totals and append the segment's row. */
  method WriteSegment(out: CsvFile, acc: Accum, rs: seq<CoreRecord>, segment: string) returns (next: Result<Accum>)
    modifies out
    ensures next == Step(acc, rs, segment, 0)
    ensures next.Ok? ==> out.lines == old(out.lines) + [SegmentLine(next.value.rows[|acc.rows|])]
    ensures next.Err? ==> out.lines == old(out.lines)
  {
    var sums := SumSegment(rs, segment, 0);
    if sums.Err? {
      return Err(sums.error);
    }
    var segmentBandwidth := sums.value.0;
    var segmentLimit := sums.value.1;
    if segmentLimit == 0 {
      return Err(ZeroDivisionError);
    }
    var saturation := segmentBandwidth as real / segmentLimit as real;
    var row := SegmentRow(segment, segmentBandwidth, segmentLimit, saturation);
    out.OutCsv(SegmentLine(row), false);
    next := Ok(Accum(acc.rows + [row], acc.bandwidthTotal + segmentBandwidth, acc.capacityTotal + segmentLimit));
  }

  /** Unlike main.py, old.py writes the real totals: with the set enumerated, the
      summary has one row per distinct segment and its Total row holds the sums
      over all records and their exact ratio. */
  lemma {:induction false} OldTotalLine(rs: seq<CoreRecord>, order: seq<string>)
    requires EnumeratesSegments(order, rs)
    requires Aggregate(rs, order).Ok?
    ensures |SegmentLines(Aggregate(rs, order).value.rows)| == |SegmentSet(rs)|
    ensures Total(rs, Limit) != 0
    ensures TotalLine(Aggregate(rs, order).value) ==
      [VStr("Total:"), VInt(Total(rs, Bandwidth)), VInt(Total(rs, Limit)), VReal(Aggregate(rs, order).value.saturation)]
  {
    AggregateTotals(rs, order);
    SegmentRowsCover(rs, order, 0);
  }

  // ---------------------------------------------------------------------------
  // The script
  // ---------------------------------------------------------------------------

  /** The part of old.py after the header row: the sensor loop, then the
      summary unless a row raised. The sensor rows stay at the front of the file
      whatever happens after them. */
  method SensorsAndSummary(out: CsvFile, sensors: seq<Sensor>, api: Sensor -> Fetch, debug: bool,
                           pct: seq<real> --> int, order: seq<string>)
    returns (r: Result<Summary>)
    requires PctTotal(pct)
    modifies out
    ensures |OldPass(old(out.lines), Outcomes(sensors, api, debug, pct)).lines| <= |out.lines|
    ensures out.lines[..|OldPass(old(out.lines), Outcomes(sensors, api, debug, pct)).lines|] ==
              OldPass(old(out.lines), Outcomes(sensors, api, debug, pct)).lines
    ensures OldPass(old(out.lines), Outcomes(sensors, api, debug, pct)).crashed.Some? ==>
              r == Err(OldPass(old(out.lines), Outcomes(sensors, api, debug, pct)).crashed.value) &&
              out.lines == OldPass(old(out.lines), Outcomes(sensors, api, debug, pct)).lines
    ensures OldPass(old(out.lines), Outcomes(sensors, api, debug, pct)).crashed.None? ==>
              r == Aggregate(OldPass(old(out.lines), Outcomes(sensors, api, debug, pct)).records, order) &&
              out.lines == SummaryFile(OldPass(old(out.lines), Outcomes(sensors, api, debug, pct)).lines,
                                       OldPass(old(out.lines), Outcomes(sensors, api, debug, pct)).records, order)
  {
    var summaryData, crashed := SensorLoop(out, sensors, api, debug, pct);
    if crashed.Some? {
      return Err(crashed.value);
    }
    ghost var afterLoop := out.lines;
    ghost var written;
    r, written := WriteSummary(out, summaryData, order);
    SummaryFileKeeps(afterLoop, summaryData, order);
  }

  /** The rows already in the file stay in front of the loop's rows. */
  lemma {:induction false} OldPassKeeps(lines0: seq<Line>, os: seq<Outcome>)
    ensures |lines0| <= |OldPass(lines0, os).lines|
    ensures OldPass(lines0, os).lines[..|lines0|] == lines0
    decreases |os|
  {
    if os != [] {
      OldPassKeeps(lines0, os[..|os| - 1]);
    }
  }

  /** old.py from the sensor list to the Total row, given the sensor listing,
      the `--sensorid`, `--percentile` and `--debug` options, the responses,
      the percentile function and the iteration order of the `segments` set. */
  method RunOld(out: CsvFile, listing: seq<Sensor>, sensorid: Option<string>, percentile: string, debug: bool,
                api: Sensor -> Fetch, pct: seq<real> --> int, order: seq<string>)
    returns (r: Result<Summary>)
    requires PctTotal(pct)
    modifies out
    ensures SensorIds(listing, sensorid).Err? ==> r == Err(SensorIds(listing, sensorid).error) && out.lines == old(out.lines)
    ensures SensorIds(listing, sensorid).Ok? && ParseInt(percentile).None? ==>
      r == Err(ValueError) && out.lines == old(out.lines)
    ensures SensorIds(listing, sensorid).Ok? && ParseInt(percentile).Some? ==>
      |out.lines| > 0 && out.lines[0] == Strs(Headers(ParseInt(percentile).value, debug))
    ensures SensorIds(listing, sensorid).Ok? && ParseInt(percentile).Some? && SensorIds(listing, sensorid).value.None? ==>
      r == Err(TypeError) && out.lines == [Strs(Headers(ParseInt(percentile).value, debug))]
    ensures Visited(SensorIds(listing, sensorid)).Ok? && ParseInt(percentile).Some? &&
            OldPass([Strs(Headers(ParseInt(percentile).value, debug))],
                    Outcomes(Visited(SensorIds(listing, sensorid)).value, api, debug, pct)).crashed.Some? ==>
      r == Err(OldPass([Strs(Headers(ParseInt(percentile).value, debug))],
                       Outcomes(Visited(SensorIds(listing, sensorid)).value, api, debug, pct)).crashed.value) &&
      out.lines == OldPass([Strs(Headers(ParseInt(percentile).value, debug))],
                           Outcomes(Visited(SensorIds(listing, sensorid)).value, api, debug, pct)).lines
    ensures Visited(SensorIds(listing, sensorid)).Ok? && ParseInt(percentile).Some? &&
            OldPass([Strs(Headers(ParseInt(percentile).value, debug))],
                    Outcomes(Visited(SensorIds(listing, sensorid)).value, api, debug, pct)).crashed.None? ==>
      r == Aggregate(OldPass([Strs(Headers(ParseInt(percentile).value, debug))],
                             Outcomes(Visited(SensorIds(listing, sensorid)).value, api, debug, pct)).records, order) &&
      out.lines == SummaryFile(OldPass([Strs(Headers(ParseInt(percentile).value, debug))],
                                       Outcomes(Visited(SensorIds(listing, sensorid)).value, api, debug, pct)).lines,
                               OldPass([Strs(Headers(ParseInt(percentile).value, debug))],
                                       Outcomes(Visited(SensorIds(listing, sensorid)).value, api, debug, pct)).records,
                               order)
  {
    var ids := GetKpiSensorIds(listing, sensorid);
    if ids.Err? {
      return Err(ids.error);
    }
    var headers := BuildHeaders(percentile, debug);
    if headers.Err? {
      return Err(headers.error);
    }
    out.OutCsv(Strs(headers.value), true);
    var sensors := Visited(ids);
    if sensors.Err? {
      return Err(sensors.error);
    }
    ghost var head := Strs(Headers(ParseInt(percentile).value, debug));
    assert out.lines == [head];
    ghost var os := Outcomes(sensors.value, api, debug, pct);
    ghost var p := OldPass([head], os);
    OldPassKeeps([head], os);
    r := SensorsAndSummary(out, sensors.value, api, debug, pct, order);
    assert out.lines[..|p.lines|] == p.lines;
    assert p.lines[..1] == [head];
    assert p.lines[0] == p.lines[..1][0];
    assert out.lines[0] == p.lines[0];
  }
}

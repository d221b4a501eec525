/**
 * main.py as a whole: the workbook headers, the per-sensor loop that writes
 * one row per fetched sensor, and the segment rows and "Total" row of the
 * summary sheet.  The sensor list and every historic-data response are
 * inputs; `pct` stands for `math.ceil(numpy.percentile(..))`.
 */
module MainReport {
  import opened Py
  import opened PyStr
  import opened Tags
  import opened Traffic
  import opened Segments
  import opened Rows
  import opened Sheet

  // ---------------------------------------------------------------------------
  // xlsx_build
  // ---------------------------------------------------------------------------

  /** `sheetHeaders`; `t14` and `t28` are the `%m/%d` dates 14 and 28 days back. */
  function SheetHeaders(t14: string, t28: string): seq<string> {
    ["Location", "Max Traffic (Mb/s)", "Choke Point (Device)", "Choke Point Limit (Mb/s)",
     "Circuit Max Limit (Mb/s)", "Circuit Utilization", "Choke Utilization (Current)",
     "Choke Utilization (" + t14 + ")", "Choke Utilization (" + t28 + ")",
     "Max Usage Plan", "Notes", "Action"]
  }

  /** `coreUtilSummaryHeaders` */
  function SummaryHeaders(t14: string, t28: string): seq<string> {
    ["Core Utilization Summary", "Bandwidth (Mb/s)", "Max Capacity", "Gross Utilization (Current)",
     "Gross Utilization (" + t14 + ")", "Gross Utilization (" + t28 + ")"]
  }

  /** `alphabetArray` has 13 letters; header i is written under letter i, i.e. column i + 1. */
  const Letters: nat := 13

  /** The summary sheet `m` with the summary headers in row 1 and 'Total: ' in A5. */
  function SummaryStart(m: map<Cell, Value>, t14: string, t28: string): map<Cell, Value> {
    PlaceRow(m, 1, 1, Strs(SummaryHeaders(t14, t28)))[(5, 1) := VStr("Total: ")]
  }

  /** The header part of `xlsx_build` (widths and styles are not modelled). */
  method XlsxBuild(wb: Workbook, t14: string, t28: string)
    modifies wb
    ensures wb.main == PlaceRow(old(wb.main), 1, 1, Strs(SheetHeaders(t14, t28)))
    ensures wb.summary == SummaryStart(old(wb.summary), t14, t28)
    ensures wb.fills == old(wb.fills)
  {
    var sheetHeaders := SheetHeaders(t14, t28);
    var coreUtilSummaryHeaders := SummaryHeaders(t14, t28);
    assert |sheetHeaders| <= Letters && |coreUtilSummaryHeaders| <= Letters;
    wb.WriteMainRow(1, 1, Strs(sheetHeaders));
    wb.WriteSummaryRow(1, 1, Strs(coreUtilSummaryHeaders));
    wb.WriteXlsxSeg(5, 1, VStr("Total: "));
  }

  /** On a fresh workbook, header i sits in row 1, column i + 1 of each sheet, and
      'Total: ' in A5. */
  lemma {:induction false} HeaderCells(t14: string, t28: string)
    ensures forall c :: 1 <= c <= 12 ==>
      (1, c) in PlaceRow(map[], 1, 1, Strs(SheetHeaders(t14, t28))) &&
      PlaceRow(map[], 1, 1, Strs(SheetHeaders(t14, t28)))[(1, c)] == VStr(SheetHeaders(t14, t28)[c - 1])
    ensures forall c :: 1 <= c <= 6 ==>
      (1, c) in PlaceRow(map[], 1, 1, Strs(SummaryHeaders(t14, t28)))[(5, 1) := VStr("Total: ")] &&
      PlaceRow(map[], 1, 1, Strs(SummaryHeaders(t14, t28)))[(5, 1) := VStr("Total: ")][(1, c)]
        == VStr(SummaryHeaders(t14, t28)[c - 1])
    ensures PlaceRow(map[], 1, 1, Strs(SheetHeaders(t14, t28))).Keys == Span(1, 1, 12)
  {
    PlaceRowCells(map[], 1, 1, Strs(SheetHeaders(t14, t28)));
    PlaceRowCells(map[], 1, 1, Strs(SummaryHeaders(t14, t28)));
  }

  // ---------------------------------------------------------------------------
  // The sensor loop
  // ---------------------------------------------------------------------------

  /** What an iteration of `for sensor in sensors:` has to work with: no 200
      response, or the row derived from the response. */
  datatype Outcome = NotFetched | Derived(row: Result<MainRowOut>)

  function OutcomeOf(s: Sensor, f: Fetch, pct: seq<real> --> int): Outcome
    requires PctTotal(pct)
  {
    if f.status != 200 then NotFetched else Derived(MainRow(s, f.histdata, pct))
  }

  /** The outcomes of `sensors` in loop order, given the responses `api`. */
  function Outcomes(sensors: seq<Sensor>, api: Sensor -> Fetch, pct: seq<real> --> int): (os: seq<Outcome>)
    requires PctTotal(pct)
    ensures |os| == |sensors|
    decreases |sensors|
  {
    if sensors == [] then []
    else Outcomes(sensors[..|sensors| - 1], api, pct) + [OutcomeOf(sensors[|sensors| - 1], api(sensors[|sensors| - 1]), pct)]
  }

  lemma {:induction false} OutcomesAt(sensors: seq<Sensor>, api: Sensor -> Fetch, pct: seq<real> --> int, k: int)
    requires PctTotal(pct)
    requires 0 <= k < |sensors|
    ensures |Outcomes(sensors, api, pct)| == |sensors|
    ensures Outcomes(sensors, api, pct)[k] == OutcomeOf(sensors[k], api(sensors[k]), pct)
    decreases |sensors|
  {
    var init := sensors[..|sensors| - 1];
    if k < |sensors| - 1 {
      OutcomesAt(init, api, pct, k);
    } else if init != [] {
      OutcomesAt(init, api, pct, 0);
    }
  }

  /** The script state the loop carries: `row_index`, `summary_data`, the main
      sheet, the fills, and the exception that ended the script, if any. */
  datatype Pass = Pass(rowIndex: int, records: seq<CoreRecord>, main: map<Cell, Value>,
                       fills: set<Cell>, crashed: Option<PyError>)

  /** One iteration: a failed fetch is skipped; a row that raises ends the script;
      otherwise the edge fill, the row write, the summary record and `row_index += 1`. */
  function Visit(p: Pass, o: Outcome): Pass {
    if p.crashed.Some? || o.NotFetched? then p
    else
      match o.row
      case Err(e) => p.(crashed := Some(e))
      case Ok(r) =>
        Pass(p.rowIndex + 1, p.records + RecordList(r.record),
             PlaceRow(p.main, p.rowIndex, 1, r.cells),
             if r.edge then p.fills + Span(p.rowIndex, 1, 5) else p.fills, None)
  }

  /** The loop over the outcomes, starting at `row_index = 2` on sheet `m0` with fills `f0`. */
  function MainPass(m0: map<Cell, Value>, f0: set<Cell>, os: seq<Outcome>): Pass
    decreases |os|
  {
    if os == [] then Pass(2, [], m0, f0, None)
    else Visit(MainPass(m0, f0, os[..|os| - 1]), os[|os| - 1])
  }

  lemma {:induction false} MainPassCrashSticky(m0: map<Cell, Value>, f0: set<Cell>, os: seq<Outcome>, n: nat)
    requires n <= |os|
    requires MainPass(m0, f0, os[..n]).crashed.Some?
    ensures MainPass(m0, f0, os) == MainPass(m0, f0, os[..n])
    decreases |os|
  {
    if n < |os| {
      var init := os[..|os| - 1];
      assert init[..n] == os[..n];
      MainPassCrashSticky(m0, f0, init, n);
    } else {
      assert os[..n] == os;
    }
  }

  /** main.py's sensor loop: fetch, derive the row, fill an edge row, write the row. */
  method SensorLoop(wb: Workbook, sensors: seq<Sensor>, api: Sensor -> Fetch, pct: seq<real> --> int)
    returns (rowIndex: int, summaryData: seq<CoreRecord>, crashed: Option<PyError>)
    requires PctTotal(pct)
    modifies wb
    ensures rowIndex == MainPass(old(wb.main), old(wb.fills), Outcomes(sensors, api, pct)).rowIndex
    ensures summaryData == MainPass(old(wb.main), old(wb.fills), Outcomes(sensors, api, pct)).records
    ensures crashed == MainPass(old(wb.main), old(wb.fills), Outcomes(sensors, api, pct)).crashed
    ensures wb.main == MainPass(old(wb.main), old(wb.fills), Outcomes(sensors, api, pct)).main
    ensures wb.fills == MainPass(old(wb.main), old(wb.fills), Outcomes(sensors, api, pct)).fills
    ensures wb.summary == old(wb.summary)
  {
    var os := Outcomes(sensors, api, pct);
    rowIndex := 2;
    summaryData := [];
    crashed := None;
    var i := 0;
    while i < |os|
      invariant 0 <= i <= |os|
      invariant MainPass(old(wb.main), old(wb.fills), os[..i]) == Pass(rowIndex, summaryData, wb.main, wb.fills, None)
      invariant crashed.None?
      invariant wb.summary == old(wb.summary)
    {
      assert os[..i + 1][..i] == os[..i];
      rowIndex, summaryData, crashed := VisitSensor(wb, os[i], rowIndex, summaryData);
      if crashed.Some? {
        MainPassCrashSticky(old(wb.main), old(wb.fills), os, i + 1);
        return;
      }
      i := i + 1;
    }
    assert os[..i] == os;
  }

  /** One iteration for one sensor: nothing for a failed fetch; for a derived row,
      the edge fill, the row write, the record and the next `row_index`. */
  method VisitSensor(wb: Workbook, o: Outcome, rowIndex0: int, records: seq<CoreRecord>)
    returns (rowIndex: int, summaryData: seq<CoreRecord>, crashed: Option<PyError>)
    modifies wb
    ensures Visit(Pass(rowIndex0, records, old(wb.main), old(wb.fills), None), o) ==
            Pass(rowIndex, summaryData, wb.main, wb.fills, crashed)
    ensures wb.summary == old(wb.summary)
  {
    rowIndex := rowIndex0;
    summaryData := records;
    crashed := None;
    if o.Derived? {
      if o.row.Err? {
        crashed := Some(o.row.error);
        return;
      }
      WriteSensorRow(wb, rowIndex, o.row.value);
      summaryData := summaryData + RecordList(o.row.value.record);
      rowIndex := rowIndex + 1;
    }
  }

  /** The body of a successful iteration: the edge fill on columns 1..5, then the row. */
  method WriteSensorRow(wb: Workbook, rowIndex: int, r: MainRowOut)
    modifies wb
    ensures wb.main == PlaceRow(old(wb.main), rowIndex, 1, r.cells)
    ensures wb.fills == if r.edge then old(wb.fills) + Span(rowIndex, 1, 5) else old(wb.fills)
    ensures wb.summary == old(wb.summary)
  {
    if r.edge {
      wb.FillRow(rowIndex, 5);
    }
    wb.WriteMainRow(rowIndex, 1, r.cells);
  }

  lemma {:induction false} OutcomesPrefix(sensors: seq<Sensor>, api: Sensor -> Fetch, pct: seq<real> --> int, n: nat)
    requires PctTotal(pct)
    requires n <= |sensors|
    ensures |Outcomes(sensors, api, pct)| == |sensors|
    ensures Outcomes(sensors, api, pct)[..n] == Outcomes(sensors[..n], api, pct)
    decreases |sensors|
  {
    if n < |sensors| {
      var init := sensors[..|sensors| - 1];
      assert init[..n] == sensors[..n];
      OutcomesPrefix(init, api, pct, n);
    } else {
      assert sensors[..n] == sensors;
      if sensors != [] {
        OutcomesAt(sensors, api, pct, 0);
      }
    }
  }

  /** Once the script has crashed, nothing changes any more. */
  lemma {:induction false} VisitCrashed(p: Pass, o: Outcome)
    ensures p.crashed.Some? ==> Visit(p, o) == p
    ensures Visit(p, o).crashed.None? ==> p.crashed.None?
  {
  }

  /** A failed fetch changes nothing; a row that raises ends the script with that
      exception and changes nothing else. */
  lemma {:induction false} VisitSkip(p: Pass, o: Outcome)
    requires p.crashed.None?
    ensures o.NotFetched? ==> Visit(p, o) == p
    ensures o.Derived? && o.row.Err? ==> Visit(p, o) == p.(crashed := Some(o.row.error))
  {
  }

  /** A fetched row lands in columns 1..len(row) of `row_index`, which then advances. */
  lemma {:induction false} VisitWrite(p: Pass, o: Outcome, c: int)
    requires p.crashed.None? && o.Derived? && o.row.Ok?
    requires 1 <= c <= |o.row.value.cells|
    ensures Visit(p, o).crashed.None?
    ensures Visit(p, o).rowIndex == p.rowIndex + 1
    ensures (p.rowIndex, c) in Visit(p, o).main
    ensures Visit(p, o).main[(p.rowIndex, c)] == o.row.value.cells[c - 1]
  {
    PlaceRowWritten(p.main, p.rowIndex, 1, o.row.value.cells, c - 1);
  }

  /** A visit leaves every cell outside the current row alone. */
  lemma {:induction false} VisitKeep(p: Pass, o: Outcome, k: Cell)
    requires p.crashed.None? && k.0 != p.rowIndex
    ensures k in Visit(p, o).main <==> k in p.main
    ensures k in p.main ==> Visit(p, o).main[k] == p.main[k]
  {
    if o.Derived? && o.row.Ok? {
      PlaceRowKeeps(p.main, p.rowIndex, 1, o.row.value.cells, k);
    }
  }

  /** An edge row gets the fill on columns 1..5 and no other cell does; the row's
      summary record, if any, is appended. */
  lemma {:induction false} VisitFill(p: Pass, o: Outcome)
    requires p.crashed.None? && o.Derived? && o.row.Ok?
    ensures Visit(p, o).fills == p.fills + (if o.row.value.edge then Span(p.rowIndex, 1, 5) else {})
    ensures Visit(p, o).records == p.records + RecordList(o.row.value.record)
  {
  }

  /** main.py's edge flag is the truthiness of the sensor's `edge` property, and its
      record exists exactly for a Core segment and carries that segment. */
  lemma {:induction false} MainRowFlags(s: Sensor, f: Fetch, pct: seq<real> --> int)
    requires PctTotal(pct)
    requires MainRow(s, f.histdata, pct).Ok?
    ensures MainRow(s, f.histdata, pct).value.edge <==> Truthy(ExtractTolerant(s.tags), "edge")
    ensures MainRow(s, f.histdata, pct).value.record.Some? ==>
      Contains(MainRow(s, f.histdata, pct).value.record.value.segment, "Core")
  {
    var p := ExtractTolerant(s.tags);
    MainCellsLayout(p, Padded(f.histdata, TrafficIn), Padded(f.histdata, TrafficOut), pct);
    MainCellsOutcome(p, Padded(f.histdata, TrafficIn), Padded(f.histdata, TrafficOut), pct);
  }

  /** The number of outcomes with a 200 response. */
  function Fetched(os: seq<Outcome>): nat
    decreases |os|
  {
    if os == [] then 0 else Fetched(os[..|os| - 1]) + (if os[|os| - 1].Derived? then 1 else 0)
  }

  /** The script survives the loop exactly when every fetched sensor's row can be built. */
  lemma {:induction false} MainPassOutcome(m0: map<Cell, Value>, f0: set<Cell>, os: seq<Outcome>)
    ensures MainPass(m0, f0, os).crashed.None? <==> forall k :: 0 <= k < |os| && os[k].Derived? ==> os[k].row.Ok?
    decreases |os|
  {
    if os != [] {
      var init := os[..|os| - 1];
      MainPassOutcome(m0, f0, init);
      assert forall k :: 0 <= k < |init| ==> init[k] == os[k];
    }
  }

  /** Without a crash, `row_index` ends at 2 plus the number of fetched sensors, and
      every summary record is the record of some fetched row. */
  lemma {:induction false} MainPassCounts(m0: map<Cell, Value>, f0: set<Cell>, os: seq<Outcome>)
    requires MainPass(m0, f0, os).crashed.None?
    ensures MainPass(m0, f0, os).rowIndex == 2 + Fetched(os)
    ensures forall r :: r in MainPass(m0, f0, os).records ==>
      exists k :: 0 <= k < |os| && os[k].Derived? && os[k].row.Ok? && os[k].row.value.record == Some(r)
    decreases |os|
  {
    if os != [] {
      var init := os[..|os| - 1];
      VisitCrashed(MainPass(m0, f0, init), os[|os| - 1]);
      MainPassCounts(m0, f0, init);
      forall r | r in MainPass(m0, f0, os).records
        ensures exists k :: 0 <= k < |os| && os[k].Derived? && os[k].row.Ok? && os[k].row.value.record == Some(r)
      {
        if r in MainPass(m0, f0, init).records {
          var k :| 0 <= k < |init| && init[k].Derived? && init[k].row.Ok? && init[k].row.value.record == Some(r);
          assert os[k] == init[k];
        } else {
          assert os[|os| - 1].row.value.record == Some(r);
        }
      }
    }
  }

  /** `summary_data` holds only Core segments. */
  lemma {:induction false} MainSummaryCore(m0: map<Cell, Value>, f0: set<Cell>, sensors: seq<Sensor>,
                                           api: Sensor -> Fetch, pct: seq<real> --> int)
    requires PctTotal(pct)
    requires MainPass(m0, f0, Outcomes(sensors, api, pct)).crashed.None?
    ensures forall r :: r in MainPass(m0, f0, Outcomes(sensors, api, pct)).records ==> Contains(r.segment, "Core")
  {
    var os := Outcomes(sensors, api, pct);
    MainPassCounts(m0, f0, os);
    forall r | r in MainPass(m0, f0, os).records
      ensures Contains(r.segment, "Core")
    {
      var k :| 0 <= k < |os| && os[k].Derived? && os[k].row.Ok? && os[k].row.value.record == Some(r);
      OutcomesAt(sensors, api, pct, k);
      MainRowFlags(sensors[k], api(sensors[k]), pct);
    }
  }

  /** A fetched outcome counts towards every longer prefix. */
  lemma {:induction false} FetchedGrows(os: seq<Outcome>, k: int, j: int)
    requires 0 <= k < j <= |os| && os[k].Derived?
    ensures Fetched(os[..k]) < Fetched(os[..j])
    decreases j
  {
    assert os[..j][..j - 1] == os[..j - 1];
    if j > k + 1 {
      FetchedGrows(os, k, j - 1);
    }
  }

  /** The k-th fetched sensor owns row 2 + (number of fetched sensors before it),
      and at the end of the loop that row still holds its cells in order. */
  lemma {:induction false} MainPassRowOf(m0: map<Cell, Value>, f0: set<Cell>, os: seq<Outcome>, k: int, c: int)
    requires MainPass(m0, f0, os).crashed.None?
    requires 0 <= k < |os| && os[k].Derived? && os[k].row.Ok?
    requires 1 <= c <= |os[k].row.value.cells|
    ensures (2 + Fetched(os[..k]), c) in MainPass(m0, f0, os).main
    ensures MainPass(m0, f0, os).main[(2 + Fetched(os[..k]), c)] == os[k].row.value.cells[c - 1]
    decreases |os|
  {
    var n := |os|;
    var init := os[..n - 1];
    var prev := MainPass(m0, f0, init);
    VisitCrashed(prev, os[n - 1]);
    MainPassCounts(m0, f0, init);
    if k == n - 1 {
      assert init == os[..k];
      VisitWrite(prev, os[n - 1], c);
    } else {
      assert init[..k] == os[..k] && init[k] == os[k];
      MainPassRowOf(m0, f0, init, k, c);
      FetchedGrows(init, k, n - 1);
      assert init[..n - 1] == init;
      VisitKeep(prev, os[n - 1], (2 + Fetched(os[..k]), c));
    }
  }

  /** Fills only ever land on columns 1..5 of rows the loop has already used. */
  lemma {:induction false} MainPassFills(m0: map<Cell, Value>, f0: set<Cell>, os: seq<Outcome>)
    ensures MainPass(m0, f0, os).rowIndex >= 2
    ensures forall x :: x in MainPass(m0, f0, os).fills && x !in f0 ==>
      1 <= x.1 <= 5 && 2 <= x.0 < MainPass(m0, f0, os).rowIndex
    decreases |os|
  {
    if os != [] {
      MainPassFills(m0, f0, os[..|os| - 1]);
    }
  }

  // ---------------------------------------------------------------------------
  // Segment and total rows of the summary sheet
  // ---------------------------------------------------------------------------

  /** `segment_list[:3]`: the columns the write loop reaches (saturation is never written). */
  function SegmentCells(row: SegmentRow): seq<Value> {
    [VStr(row.segment), VInt(row.bandwidth), VInt(row.limit)]
  }

  /** The summary sheet after segment rows `rows` are written from row 2 downwards. */
  function SegmentSheet(m: map<Cell, Value>, rows: seq<SegmentRow>): map<Cell, Value>
    decreases |rows|
  {
    if rows == [] then m
    else PlaceRow(SegmentSheet(m, rows[..|rows| - 1]), 1 + |rows|, 1, SegmentCells(rows[|rows| - 1]))
  }

  /** The sheet `m` is `m0` with the rows of the first `j` segments written, all of
      which were summed without error. */
  predicate WrittenThrough(m0: map<Cell, Value>, m: map<Cell, Value>, rs: seq<CoreRecord>, order: seq<string>, j: int) {
    && 0 <= j <= |order|
    && SegmentRows(rs, order[..j], 0).Ok?
    && m == SegmentSheet(m0, SegmentRows(rs, order[..j], 0).value.rows)
  }

  /** The summary sheet after the segment part of main.py runs on `m0`: the
      segment rows and row 5 columns 2..4 copied from the last segment, or,
      when the aggregation raises, the rows of the segments summed before that. */
  function SegmentsSheet(m0: map<Cell, Value>, rs: seq<CoreRecord>, order: seq<string>): map<Cell, Value> {
    match Aggregate(rs, order)
    case Ok(sum) =>
      SegmentRowsTotals(rs, order, 0, Limit);
      PlaceRow(SegmentSheet(m0, sum.rows), 5, 2, SegmentCells(sum.rows[|sum.rows| - 1]))
    case Err(_) => SegmentSheet(m0, DoneRows(rs, order, 0))
  }

  /** The segment part of main.py: one summary row per segment of `order`, the
      overall division, then row 5 columns 2..4 from the last `segment_list`.
      An exception leaves the rows of the first `written` segments. */
  method WriteSegments(wb: Workbook, rs: seq<CoreRecord>, order: seq<string>) returns (r: Result<Summary>, ghost written: nat)
    modifies wb
    ensures r == Aggregate(rs, order)
    ensures r.Ok? ==> |r.value.rows| > 0
    ensures r.Ok? ==> wb.summary == PlaceRow(SegmentSheet(old(wb.summary), r.value.rows), 5, 2,
                                             SegmentCells(r.value.rows[|r.value.rows| - 1]))
    ensures r.Err? ==> WrittenThrough(old(wb.summary), wb.summary, rs, order, written)
    ensures wb.summary == SegmentsSheet(old(wb.summary), rs, order)
    ensures wb.main == old(wb.main) && wb.fills == old(wb.fills)
  {
    var acc;
    acc, written := WriteSegmentRows(wb, rs, order);
    if acc.Err? {
      DoneRowsAt(rs, order, 0, written);
      return Err(acc.error), written;
    }
    assert order[..written] == order;
    if acc.value.capacityTotal == 0 {
      DoneRowsOk(rs, order, 0);
      return Err(ZeroDivisionError), written;
    }
    assert |acc.value.rows| > 0 by {
      SegmentRowsTotals(rs, order, 0, Limit);
    }
    var segmentSaturation := acc.value.bandwidthTotal as real / acc.value.capacityTotal as real;
    wb.WriteSummaryRow(5, 2, SegmentCells(acc.value.rows[|acc.value.rows| - 1]));
    r := Ok(Summary(acc.value.rows, acc.value.bandwidthTotal, acc.value.capacityTotal, segmentSaturation));
  }

  /** The outer loop `for segment in segments:`, writing row `seg_row_index = 2 + i`
      for the i-th segment; on an exception the rows of the first `written`
      segments are on the sheet. */
  method WriteSegmentRows(wb: Workbook, rs: seq<CoreRecord>, order: seq<string>) returns (r: Result<Accum>, ghost written: nat)
    modifies wb
    ensures r == SegmentRows(rs, order, 0)
    ensures WrittenThrough(old(wb.summary), wb.summary, rs, order, written)
    ensures r.Ok? ==> written == |order|
    ensures r.Err? ==> written < |order| && SegmentRows(rs, order[..written + 1], 0).Err?
    ensures wb.main == old(wb.main) && wb.fills == old(wb.fills)
  {
    var acc := Accum([], 0, 0);
    var segRowIndex := 2;
    var i := 0;
    while i < |order|
      invariant 0 <= i <= |order|
      invariant SegmentRows(rs, order[..i], 0) == Ok(acc)
      invariant segRowIndex == 2 + |acc.rows|
      invariant wb.summary == SegmentSheet(old(wb.summary), acc.rows)
      invariant wb.main == old(wb.main) && wb.fills == old(wb.fills)
    {
      assert order[..i + 1][..i] == order[..i];
      var next := WriteSegment(wb, acc, rs, order[i], segRowIndex);
      if next.Err? {
        SegmentRowsErrSticky(rs, order, 0, i + 1);
        return Err(next.error), i;
      }
      assert next.value.rows == acc.rows + [next.value.rows[|acc.rows|]];
      assert next.value.rows[..|next.value.rows| - 1] == acc.rows;
      acc := next.value;
      segRowIndex := segRowIndex + 1;
      i := i + 1;
    }
    assert order[..i] == order;
    return Ok(acc), i;
  }

  /** One iteration of `for segment in segments:`: sum, divide, add to the totals
      and write `segment_list[:3]` into columns 1..3 of `seg_row_index`. */
  method WriteSegment(wb: Workbook, acc: Accum, rs: seq<CoreRecord>, segment: string, segRowIndex: int)
    returns (next: Result<Accum>)
    modifies wb
    ensures next == Step(acc, rs, segment, 0)
    ensures next.Ok? ==> wb.summary == PlaceRow(old(wb.summary), segRowIndex, 1, SegmentCells(next.value.rows[|acc.rows|]))
    ensures next.Err? ==> wb.summary == old(wb.summary)
    ensures wb.main == old(wb.main) && wb.fills == old(wb.fills)
  {
    var sums := SumSegment(rs, segment, 0);
    if sums.Err? {
      return Err(sums.error);
    }
    var segmentBandwidth := sums.value.0;
    var segmentLimit := sums.value.1;
    if segmentLimit == 0 {
      return Err(ZeroDivisionError);
    }
    var saturation := segmentBandwidth as real / segmentLimit as real;
    var segmentList := [VStr(segment), VInt(segmentBandwidth), VInt(segmentLimit), VReal(saturation)];
    var row := SegmentRow(segment, segmentBandwidth, segmentLimit, saturation);
    assert segmentList[..3] == SegmentCells(row);
    wb.WriteSummaryRow(segRowIndex, 1, segmentList[..3]);
    next := Ok(Accum(acc.rows + [row], acc.bandwidthTotal + segmentBandwidth, acc.capacityTotal + segmentLimit));
  }

  /** Segment row i lands in row 2 + i, columns 1..3, and holds that segment's name,
      bandwidth and limit. */
  lemma {:induction false} SegmentSheetRow(m: map<Cell, Value>, rows: seq<SegmentRow>, i: int, c: int)
    requires 0 <= i < |rows| && 1 <= c <= 3
    ensures (2 + i, c) in SegmentSheet(m, rows)
    ensures SegmentSheet(m, rows)[(2 + i, c)] == SegmentCells(rows[i])[c - 1]
    decreases |rows|
  {
    var init := rows[..|rows| - 1];
    if i == |rows| - 1 {
      PlaceRowWritten(SegmentSheet(m, init), 1 + |rows|, 1, SegmentCells(rows[i]), c - 1);
    } else {
      SegmentSheetRow(m, init, i, c);
      PlaceRowKeeps(SegmentSheet(m, init), 1 + |rows|, 1, SegmentCells(rows[|rows| - 1]), (2 + i, c));
    }
  }

  /** Only columns 1..3 are ever written, so the saturation column (and all others)
      keep their old contents. */
  lemma {:induction false} SegmentSheetColumns(m: map<Cell, Value>, rows: seq<SegmentRow>, k: Cell)
    requires k.1 < 1 || 3 < k.1
    ensures k in SegmentSheet(m, rows) <==> k in m
    ensures k in m ==> SegmentSheet(m, rows)[k] == m[k]
    decreases |rows|
  {
    if rows != [] {
      var init := rows[..|rows| - 1];
      SegmentSheetColumns(m, init, k);
      PlaceRowKeeps(SegmentSheet(m, init), 1 + |rows|, 1, SegmentCells(rows[|rows| - 1]), k);
    }
  }

  /** The "Total" row B5..D5 holds the last segment's name, bandwidth and limit,
      not the computed totals. */
  lemma {:induction false} TotalRowIsLastSegment(m: map<Cell, Value>, rows: seq<SegmentRow>)
    requires |rows| > 0
    ensures forall c :: 2 <= c <= 4 ==> (5, c) in PlaceRow(SegmentSheet(m, rows), 5, 2, SegmentCells(rows[|rows| - 1]))
    ensures PlaceRow(SegmentSheet(m, rows), 5, 2, SegmentCells(rows[|rows| - 1]))[(5, 2)] == VStr(rows[|rows| - 1].segment)
    ensures PlaceRow(SegmentSheet(m, rows), 5, 2, SegmentCells(rows[|rows| - 1]))[(5, 3)] == VInt(rows[|rows| - 1].bandwidth)
    ensures PlaceRow(SegmentSheet(m, rows), 5, 2, SegmentCells(rows[|rows| - 1]))[(5, 4)] == VInt(rows[|rows| - 1].limit)
  {
    var last := SegmentCells(rows[|rows| - 1]);
    PlaceRowWritten(SegmentSheet(m, rows), 5, 2, last, 0);
    PlaceRowWritten(SegmentSheet(m, rows), 5, 2, last, 1);
    PlaceRowWritten(SegmentSheet(m, rows), 5, 2, last, 2);
  }

  // ---------------------------------------------------------------------------
  // The script
  // ---------------------------------------------------------------------------

  /** main.py from the headers to the Total row, given the sensor listing, the
      `--sensorid` option, the responses, the percentile and the iteration order of
      the `segments` set. */
  method RunMain(wb: Workbook, t14: string, t28: string, listing: seq<Sensor>, sensorid: Option<string>,
                 api: Sensor -> Fetch, pct: seq<real> --> int, order: seq<string>)
    returns (r: Result<Summary>)
    requires PctTotal(pct)
    modifies wb
    ensures Visited(SensorIds(listing, sensorid)).Err? ==>
      r == Err(Visited(SensorIds(listing, sensorid)).error) &&
      wb.main == PlaceRow(old(wb.main), 1, 1, Strs(SheetHeaders(t14, t28))) && wb.fills == old(wb.fills) &&
      wb.summary == SummaryStart(old(wb.summary), t14, t28)
    ensures Visited(SensorIds(listing, sensorid)).Ok? ==>
      var p := MainPass(PlaceRow(old(wb.main), 1, 1, Strs(SheetHeaders(t14, t28))), old(wb.fills),
                        Outcomes(Visited(SensorIds(listing, sensorid)).value, api, pct));
      wb.main == p.main && wb.fills == p.fills &&
      wb.summary == (if p.crashed.Some? then SummaryStart(old(wb.summary), t14, t28)
                     else SegmentsSheet(SummaryStart(old(wb.summary), t14, t28), p.records, order))
    ensures Visited(SensorIds(listing, sensorid)).Ok? &&
            MainPass(PlaceRow(old(wb.main), 1, 1, Strs(SheetHeaders(t14, t28))), old(wb.fills),
                     Outcomes(Visited(SensorIds(listing, sensorid)).value, api, pct)).crashed.Some? ==>
      r == Err(MainPass(PlaceRow(old(wb.main), 1, 1, Strs(SheetHeaders(t14, t28))), old(wb.fills),
                        Outcomes(Visited(SensorIds(listing, sensorid)).value, api, pct)).crashed.value)
    ensures Visited(SensorIds(listing, sensorid)).Ok? &&
            MainPass(PlaceRow(old(wb.main), 1, 1, Strs(SheetHeaders(t14, t28))), old(wb.fills),
                     Outcomes(Visited(SensorIds(listing, sensorid)).value, api, pct)).crashed.None? ==>
      r == Aggregate(MainPass(PlaceRow(old(wb.main), 1, 1, Strs(SheetHeaders(t14, t28))), old(wb.fills),
                              Outcomes(Visited(SensorIds(listing, sensorid)).value, api, pct)).records, order)
  {
    XlsxBuild(wb, t14, t28);
    var ids := GetKpiSensorIds(listing, sensorid);
    var sensors := Visited(ids);
    if sensors.Err? {
      return Err(sensors.error);
    }
    var rowIndex, summaryData, crashed := SensorLoop(wb, sensors.value, api, pct);
    if crashed.Some? {
      return Err(crashed.value);
    }
    ghost var written;
    r, written := WriteSegments(wb, summaryData, order);
  }
}

/**
 * kpi_report_bandwidth_opt.py: the bucketing variant.  Each sensor's
 * historic samples are classified by how many days back they lie; a sample
 * of week w is copied into the global `prtgDataDict` and parsed at once,
 * window 0 by the main parse (the whole row, the edge fill and the Core
 * summary row), windows 1..3 by the extended parse (the choke utilisation
 * of that week).  Summary rows are deduplicated through `kpi_seg_arr`.
 *
 * The script's globals `prtgDataDict`, `kpi_seg_arr` and the workbook are the
 * fields of `Report`; every method is proved against a function on the
 * value snapshot `St` of those fields, and the properties are lemmas about
 * those functions.
 */
module OptReport {
  import opened Py
  import opened PyStr
  import opened Tags
  import opened Traffic
  import opened Rows
  import opened Windows
  import opened Sheet

  /** One entry of `histdata`: the number of days it lies back from today
      (the regex and `strptime` step is not modelled), `str(py_formatted_date)`,
      which replaces its `datetime` field, and its fields as received. */
  datatype Sample = Sample(daysBack: int, date: string, fields: Block)

  /** A decoded `historicdata.json` response. */
  datatype Response = Response(status: int, treesize: int, histdata: seq<Sample>)

  /** The nine keys of the one-sample copy `buildComps` stores. */
  const Nine: set<string> := {"datetime", "Traffic Total (volume)", "Traffic Total (speed)",
    "Traffic In (volume)", "Traffic In (speed)", "Traffic Out (volume)",
    "Traffic Out (speed)", "Downtime", "coverage"}

  /** Snapshot of the script's mutable globals. */
  datatype St = St(main: map<Cell, Value>, summary: map<Cell, Value>, fills: set<Cell>,
                   dict: map<int, Block>, segs: seq<string>)

  /** A state reached, with the exception that ended the run (if any). */
  datatype Step = Step(st: St, crashed: Option<PyError>)

  // ---------------------------------------------------------------------------
  // Cells
  // ---------------------------------------------------------------------------

  /** How `float()` reads a tag that the script tests for truthiness first. */
  datatype Limit = NoTag | Unparsable | Limit(x: real)

  function LimitOf(p: Props, key: string): (l: Limit)
    ensures l == NoTag <==> !Truthy(p, key)
    ensures l == Unparsable <==> Truthy(p, key) && ParseFloat(p[key]).None?
    ensures l.Limit? ==> Truthy(p, key) && ParseFloat(p[key]) == Some(l.x)
  {
    if !Truthy(p, key) then NoTag
    else match ParseFloat(p[key])
      case None => Unparsable
      case Some(x) => Limit(x)
  }

  /** What the two parses read from `extract_tags(sensor)`; both call it on
      the same sensor, so it is computed once per sensor here. */
  datatype View = View(location: Value, choke: Value, chokeLimit: Limit, ckt: Limit,
                       cktGet: Option<Option<real>>, up: bool, edge: bool, seg: Result<(string, bool)>)

  function ViewOf(p: Props): (t: View)
    ensures t.location == LocationCell(p) && t.choke == TagCell(p, "kpi_choke")
    ensures t.chokeLimit == LimitOf(p, "kpi_chokelimit") && t.ckt == LimitOf(p, "kpi_cktmaxlimit")
    ensures t.cktGet.None? <==> "kpi_cktmaxlimit" !in p
    ensures t.cktGet.Some? ==> t.cktGet.value == ParseFloat(p["kpi_cktmaxlimit"])
    ensures t.up <==> "kpi_trafficdirection" in p && p["kpi_trafficdirection"] == "up"
    ensures t.edge <==> Truthy(p, "edge")
    ensures t.seg.Err? <==> IsCore(p).Err?
    ensures t.seg.Ok? ==> t.seg.value == (p["kpi_seg"], IsCore(p).value)
    ensures t.seg.Err? ==> t.seg.error == TypeError
  {
    View(LocationCell(p), TagCell(p, "kpi_choke"), LimitOf(p, "kpi_chokelimit"), LimitOf(p, "kpi_cktmaxlimit"),
         if "kpi_cktmaxlimit" in p then Some(ParseFloat(p["kpi_cktmaxlimit"])) else None,
         "kpi_trafficdirection" in p && p["kpi_trafficdirection"] == "up",
         Truthy(p, "edge"),
         match IsCore(p) case Err(e) => Err(e) case Ok(c) => Ok((p["kpi_seg"], c)))
  }

  /** The view of a sensor's tags, parsed by the tolerant `extract_tags`. */
  function SensorView(s: Sensor): View {
    ViewOf(ExtractTolerant(s.tags))
  }

  /** The views of a list of sensors, in order. */
  function Views(sensors: seq<Sensor>): (vs: seq<View>)
    ensures |vs| == |sensors|
    decreases |sensors|
  {
    if sensors == [] then [] else Views(sensors[..|sensors| - 1]) + [SensorView(sensors[|sensors| - 1])]
  }

  /** The k-th view is the view of the k-th sensor. */
  lemma {:induction false} ViewsAt(sensors: seq<Sensor>, k: nat)
    requires k < |sensors|
    ensures Views(sensors)[k] == SensorView(sensors[k])
    decreases |sensors|
  {
    if k < |sensors| - 1 {
      assert sensors[..|sensors| - 1][k] == sensors[k];
      ViewsAt(sensors[..|sensors| - 1], k);
    }
  }

  /** `extract_tags(sensordata[k])` and what the parses read from it. */
  method SensorTags(sensors: seq<Sensor>, k: nat) returns (t: View)
    requires k < |sensors|
    ensures t == ViewOf(ExtractTolerant(sensors[k].tags))
    ensures t == Views(sensors)[k]
  {
    var p := ExtractTagsTolerant(sensors[k].tags);
    t := ViewOf(p);
    ViewsAt(sensors, k);
  }

  /** `float(properties[key])` when the tag is truthy, 'NA' otherwise. */
  function FloatCell(l: Limit): (v: Result<Value>)
    ensures v.Err? <==> l == Unparsable
    ensures v.Err? ==> v.error == ValueError
    ensures l == NoTag ==> v == Ok(VStr("NA"))
    ensures l.Limit? ==> v == Ok(VReal(l.x))
  {
    match l
    case NoTag => Ok(VStr("NA"))
    case Unparsable => Err(ValueError)
    case Limit(x) => Ok(VReal(x))
  }

  /** `float(max_traffic) / float(properties[key])` when the tag is truthy, 'NA' otherwise. */
  function RatioCell(mx: int, l: Limit): (v: Result<Value>)
    ensures v == Ok(VStr("NA")) <==> l == NoTag
    ensures v.Err? <==> l == Unparsable || l == Limit(0.0)
    ensures v.Err? ==> (v.error == ValueError <==> l == Unparsable) &&
                       (v.error == ValueError || v.error == ZeroDivisionError)
    ensures v.Ok? && l.Limit? ==> v.value.VReal? && v.value.r * l.x == mx as real
  {
    match l
    case NoTag => Ok(VStr("NA"))
    case Unparsable => Err(ValueError)
    case Limit(x) =>
      match Div(mx as real, x)
      case Err(e) => Err(e)
      case Ok(q) => Ok(VReal(q))
  }

  /** The summary ratio `float(max_traffic) / float(properties.get('kpi_cktmaxlimit'))`:
      `float(None)` raises TypeError, so an absent tag fails here even though
      the main-sheet cells wrote 'NA' for it; a present `''` raises ValueError. */
  function SegRatio(mx: int, g: Option<Option<real>>): (v: Result<Value>)
    ensures v.Err? <==> g.None? || g.value.None? || g.value == Some(0.0)
    ensures v.Err? ==> (v.error == TypeError <==> g.None?)
    ensures v.Ok? ==> v.value.VReal? && v.value.r * g.value.value == mx as real
  {
    match g
    case None => Err(TypeError)
    case Some(None) => Err(ValueError)
    case Some(Some(x)) =>
      match Div(mx as real, x)
      case Err(e) => Err(e)
      case Ok(q) => Ok(VReal(q))
  }

  // ---------------------------------------------------------------------------
  // Specification of buildComps and the two parses
  // ---------------------------------------------------------------------------

  /** The dict literal of `buildComps`: the nine fields of the sample after its
      `datetime` was rewritten, or None when one of them is missing (KeyError). */
  function CompCopy(s: Sample): Option<Block> {
    var b := s.fields;
    if "Traffic Total (volume)" in b && "Traffic Total (speed)" in b && "Traffic In (volume)" in b &&
       "Traffic In (speed)" in b && "Traffic Out (volume)" in b && "Traffic Out (speed)" in b &&
       "Downtime" in b && "coverage" in b
    then
      Some(map["datetime" := FStr(s.date),
               "Traffic Total (volume)" := b["Traffic Total (volume)"],
               "Traffic Total (speed)" := b["Traffic Total (speed)"],
               "Traffic In (volume)" := b["Traffic In (volume)"],
               "Traffic In (speed)" := b["Traffic In (speed)"],
               "Traffic Out (volume)" := b["Traffic Out (volume)"],
               "Traffic Out (speed)" := b["Traffic Out (speed)"],
               "Downtime" := b["Downtime"],
               "coverage" := b["coverage"]])
    else None
  }

  /** The two in-place `normalize_traffic` calls on `prtgDataDict[w]`: the
      inbound channel is scaled first, so a failure on the outbound channel
      leaves the inbound one already scaled. */
  function NormalizeBoth(st: St, w: int): (St, Result<(seq<real>, seq<real>)>)
    requires w in st.dict
  {
    match ScaleField(st.dict[w], TrafficIn)
    case Err(e) => (st, Err(e))
    case Ok((d1, tin)) =>
      match ScaleField(d1, TrafficOut)
      case Err(e) => (st.(dict := st.dict[w := d1]), Err(e))
      case Ok((d2, tout)) => (st.(dict := st.dict[w := d2]), Ok((tin, tout)))
  }

  /** Columns 1..7 of main-sheet row `i` in `prtgMainParse`, written in order
      until the first `float()` or division raises. */
  function MainRowCells(m: map<Cell, Value>, i: int, t: View, maxCell: Value, mx: int): (map<Cell, Value>, Option<PyError>) {
    var m3 := Put(Put(Put(m, i, 1, t.location), i, 2, maxCell), i, 3, t.choke);
    match FloatCell(t.chokeLimit)
    case Err(e) => (m3, Some(e))
    case Ok(v4) =>
      var m4 := Put(m3, i, 4, v4);
      match FloatCell(t.ckt)
      case Err(e) => (m4, Some(e))
      case Ok(v5) =>
        var m5 := Put(m4, i, 5, v5);
        match RatioCell(mx, t.ckt)
        case Err(e) => (m5, Some(e))
        case Ok(v6) =>
          var m6 := Put(m5, i, 6, v6);
          match RatioCell(mx, t.chokeLimit)
          case Err(e) => (m6, Some(e))
          case Ok(v7) => (Put(m6, i, 7, v7), None)
  }

  /** The Core block of `prtgMainParse`: a Core segment not yet in `kpi_seg_arr`
      gets summary row `len(kpi_seg_arr) + 2` (name, max traffic, ratio) and is
      then appended. */
  function CoreSummary(st: St, t: View, mx: int): Step {
    match t.seg
    case Err(e) => Step(st, Some(e))
    case Ok((seg, core)) =>
      if !core || seg in st.segs then Step(st, None)
      else
        var row := |st.segs| + 2;
        var sm := Put(Put(st.summary, row, 1, VStr(seg)), row, 2, VInt(mx));
        match SegRatio(mx, t.cktGet)
        case Err(e) => Step(st.(summary := sm), Some(e))
        case Ok(v) => Step(st.(summary := Put(sm, row, 3, v), segs := st.segs + [seg]), None)
  }

  /** `prtgMainParse(0, sensor, kpi_seg_arr, s_count, i, datablock)`. */
  function MainParseSt(st: St, i: int, t: View, pct: seq<real> --> int): Step
    requires 0 in st.dict && PctTotal(pct)
  {
    var (st1, traffic) := NormalizeBoth(st, 0);
    match traffic
    case Err(e) => Step(st1, Some(e))
    case Ok((tin, tout)) =>
      var (maxCell, mx) := MaxCell(if t.up then tout else tin, pct);
      var (m, err) := MainRowCells(st1.main, i, t, maxCell, mx);
      var st2 := st1.(main := m);
      if err.Some? then Step(st2, err)
      else
        var st3 := if t.edge then st2.(fills := st2.fills + Span(i, 1, 6)) else st2;
        CoreSummary(st3, t, mx)
  }

  /** The summary write of `prtgExtendHistParse`: week w's ratio goes to column
      3 + w of the row a new Core segment would take; nothing is appended. */
  function ExtendSummary(st: St, w: int, t: View, mx: int): Result<St> {
    match t.seg
    case Err(e) => Err(e)
    case Ok((seg, core)) =>
      if !core || seg in st.segs then Ok(st)
      else
        match SegRatio(mx, t.cktGet)
        case Err(e) => Err(e)
        case Ok(v) => Ok(st.(summary := Put(st.summary, |st.segs| + 2, 3 + w, v)))
  }

  /** `prtgExtendHistParse(w, sensor, kpi_seg_arr, s_count, i, datablock)`. */
  function ExtendParseSt(st: St, w: int, i: int, t: View, pct: seq<real> --> int): Step
    requires w in st.dict && PctTotal(pct)
  {
    var (st1, traffic) := NormalizeBoth(st, w);
    match traffic
    case Err(e) => Step(st1, Some(e))
    case Ok((tin, tout)) => ExtendCells(st1, w, i, t, if t.up then tout else tin, pct)
  }

  /** The cells of `prtgExtendHistParse` once both channels are scaled. */
  function ExtendCells(st: St, w: int, i: int, t: View, series: seq<real>, pct: seq<real> --> int): Step
    requires PctTotal(pct)
  {
    match FloatCell(t.ckt)
    case Err(e) => Step(st, Some(e))
    case Ok(v5) =>
      var st2 := st.(main := Put(st.main, i, 5, v5));
      var mx := MaxCell(series, pct).1;
      match ExtendSummary(st2, w, t, mx)
      case Err(e) => Step(st2, Some(e))
      case Ok(st3) =>
        match RatioCell(mx, t.chokeLimit)
        case Err(e) => Step(st3, Some(e))
        case Ok(v) => Step(st3.(main := st3.main[(i, 7 + w) := v]), None)
  }

  /** `buildComps`: the copy replaces `prtgDataDict[w]` and is parsed at once;
      the KeyError handler covers the whole body. */
  function BuildCompsSt(st: St, i: int, w: int, smp: Sample, t: View, pct: seq<real> --> int): Step
    requires PctTotal(pct)
  {
    match CompCopy(smp)
    case None => Step(st, None)
    case Some(c) =>
      var st1 := st.(dict := st.dict[w := c]);
      var out := if w == 0 then MainParseSt(st1, i, t, pct) else ExtendParseSt(st1, w, i, t, pct);
      if out.crashed == Some(KeyError) then Step(out.st, None) else out
  }

  // ---------------------------------------------------------------------------
  // Specification of storeAPIResponse and prtgMainCall
  // ---------------------------------------------------------------------------

  /** One pass of the `storeAPIResponse` loop at index k. */
  function VisitSt(st: St, loc: int, t: View, hist: seq<Sample>, k: nat, pct: seq<real> --> int): Step
    requires PctTotal(pct)
  {
    if k >= |hist| then Step(st, Some(IndexError))
    else if "datetime" !in hist[k].fields then Step(st, Some(KeyError))
    else match Classify(hist[k].daysBack)
      case Week(w) => BuildCompsSt(st, loc, w, hist[k], t, pct)
      case _ => Step(st, None)
  }

  /** The passes k, k + 1, ..., n - 1 of the loop, from state `st`; the first
      exception ends it. */
  function StoreFrom(st: St, loc: int, t: View, hist: seq<Sample>, k: nat, n: nat, pct: seq<real> --> int): Step
    requires PctTotal(pct)
    decreases n - k
  {
    if k >= n then Step(st, None)
    else
      var o := VisitSt(st, loc, t, hist, k, pct);
      if o.crashed.Some? then o else StoreFrom(o.st, loc, t, hist, k + 1, n, pct)
  }

  function Passes(treesize: int): nat {
    if treesize > 0 then treesize else 0
  }

  /** `storeAPIResponse`: `while i < int(treesize)`. */
  function StoreSt(st: St, loc: int, t: View, r: Response, pct: seq<real> --> int): Step
    requires PctTotal(pct)
  {
    StoreFrom(st, loc, t, r.histdata, 0, Passes(r.treesize), pct)
  }

  /** The five SUM formulas of row 5 of the summary sheet. */
  function Totals(st: St): St {
    st.(summary := st.summary[(5, 2) := VStr("=SUM(B2:B4)")][(5, 3) := VStr("=SUM(C2:C4)")]
                             [(5, 4) := VStr("=SUM(D2:D4)")][(5, 5) := VStr("=SUM(E2:E4)")]
                             [(5, 6) := VStr("=SUM(F2:F4)")])
  }

  /** One pass of the loop, given the state and exception it produced. */
  lemma {:induction false} StoreStep(st0: St, st1: St, c: Option<PyError>, loc: int, t: View, hist: seq<Sample>, k: nat, n: nat,
                                     pct: seq<real> --> int)
    requires PctTotal(pct) && k < n && Step(st1, c) == VisitSt(st0, loc, t, hist, k, pct)
    ensures StoreFrom(st0, loc, t, hist, k, n, pct) ==
            if c.Some? then Step(st1, c) else StoreFrom(st1, loc, t, hist, k + 1, n, pct)
  {
  }

  /** `loc_index` and the state after the loop of `prtgMainCall`. */
  datatype Call = Call(loc: int, step: Step)

  /** The iterations for sensors k, k + 1, ... of `prtgMainCall`, from state
      `st` with `loc_index` = loc. */
  function MainCallFrom(st: St, loc: int, sensors: seq<Sensor>, views: seq<View>, api: Sensor -> Response, pct: seq<real> --> int, k: nat): Call
    requires PctTotal(pct) && |views| == |sensors|
    decreases |sensors| - k
  {
    if k >= |sensors| then Call(loc, Step(st, None))
    else
      var resp := api(sensors[k]);
      if resp.status != 200 then Call(loc, Step(st, Some(Exit(1))))
      else
        var out := StoreSt(st, loc, views[k], resp, pct);
        if out.crashed.Some? then Call(loc, out)
        else MainCallFrom(Totals(out.st), loc + 1, sensors, views, api, pct, k + 1)
  }

  /** One iteration of `prtgMainCall` for a sensor fetched with status 200,
      given the outcome of its `storeAPIResponse`. */
  lemma {:induction false} MainCallStep(st0: St, out: Step, loc: int, sensors: seq<Sensor>, views: seq<View>,
                                        api: Sensor -> Response, pct: seq<real> --> int, k: nat)
    requires PctTotal(pct) && |views| == |sensors| && k < |sensors| && api(sensors[k]).status == 200
    requires out == StoreSt(st0, loc, views[k], api(sensors[k]), pct)
    ensures MainCallFrom(st0, loc, sensors, views, api, pct, k) ==
            if out.crashed.Some? then Call(loc, out) else MainCallFrom(Totals(out.st), loc + 1, sensors, views, api, pct, k + 1)
  {
  }

  /** `prtgMainCall`: `loc_index` starts at 2. */
  function MainCallSt(st: St, sensors: seq<Sensor>, api: Sensor -> Response, pct: seq<real> --> int): Call
    requires PctTotal(pct)
  {
    MainCallFrom(st, 2, sensors, Views(sensors), api, pct, 0)
  }

  // ---------------------------------------------------------------------------
  // The script's globals and its functions as methods
  // ---------------------------------------------------------------------------

  class Report {
    const wb: Workbook
    /** `prtgDataDict`, keyed by the week number of '{w} Weeks Back' */
    var dict: map<int, Block>
    /** `kpi_seg_arr` */
    var segs: seq<string>

    constructor (wb: Workbook)
      ensures this.wb == wb && dict == map[] && segs == []
    {
      this.wb := wb;
      dict := map[];
      segs := [];
    }

    function State(): St
      reads this, wb
    {
      St(wb.main, wb.summary, wb.fills, dict, segs)
    }

    /** `normalize_traffic(prtgDataDict[w], chan)`, which scales the field in place. */
    method NormalizeTraffic(w: int, chan: string) returns (r: Result<seq<real>>)
      requires w in dict
      modifies this
      ensures ScaleField(old(dict[w]), chan).Ok? ==>
                r == Ok(ScaleField(old(dict[w]), chan).value.1) &&
                dict == old(dict)[w := ScaleField(old(dict[w]), chan).value.0]
      ensures ScaleField(old(dict[w]), chan).Err? ==>
                r == Err(ScaleField(old(dict[w]), chan).error) && dict == old(dict)
      ensures segs == old(segs)
    {
      var data := dict[w];
      if chan !in data {
        return Err(KeyError);
      }
      if data[chan] != FStr("") {
        if data[chan].FStr? {
          return Err(TypeError);
        }
        var scaled := data[chan].x * Factor;
        dict := dict[w := data[chan := FNum(scaled)]];
        return Ok([scaled]);
      }
      return Ok([]);
    }

    /** Both channels of `prtgDataDict[w]`, inbound first. */
    method NormalizeChannels(w: int) returns (r: Result<(seq<real>, seq<real>)>)
      requires w in dict
      modifies this
      ensures (State(), r) == NormalizeBoth(old(State()), w)
    {
      ghost var st0 := State();
      var tin := NormalizeTraffic(w, TrafficIn);
      assert wb.main == st0.main && wb.summary == st0.summary && wb.fills == st0.fills;
      if tin.Err? {
        return Err(tin.error);
      }
      ghost var st1 := State();
      assert st1 == st0.(dict := st0.dict[w := ScaleField(st0.dict[w], TrafficIn).value.0]);
      var tout := NormalizeTraffic(w, TrafficOut);
      if tout.Err? {
        return Err(tout.error);
      }
      assert State() == st0.(dict := st0.dict[w := ScaleField(st1.dict[w], TrafficOut).value.0]);
      return Ok((tin.value, tout.value));
    }

    /** Columns 1..7 of the main parse. */
    method WriteMainCells(i: int, t: View, maxCell: Value, mx: int) returns (crashed: Option<PyError>)
      modifies wb
      ensures (wb.main, crashed) == MainRowCells(old(wb.main), i, t, maxCell, mx)
      ensures wb.summary == old(wb.summary) && wb.fills == old(wb.fills)
    {
      wb.WriteToSheet(i, 1, t.location);
      wb.WriteToSheet(i, 2, maxCell);
      ghost var m2 := wb.main;
      if t.choke == VStr("NA") {
        wb.main := wb.main[(i, 3) := VStr("NA")];
      }
      wb.WriteToSheet(i, 3, t.choke);
      assert wb.main == Put(m2, i, 3, t.choke);
      var v4 := FloatCell(t.chokeLimit);
      if v4.Err? {
        return Some(v4.error);
      }
      wb.WriteToSheet(i, 4, v4.value);
      var v5 := FloatCell(t.ckt);
      if v5.Err? {
        return Some(v5.error);
      }
      wb.WriteToSheet(i, 5, v5.value);
      var v6 := RatioCell(mx, t.ckt);
      if v6.Err? {
        return Some(v6.error);
      }
      wb.WriteToSheet(i, 6, v6.value);
      var v7 := RatioCell(mx, t.chokeLimit);
      if v7.Err? {
        return Some(v7.error);
      }
      wb.WriteToSheet(i, 7, v7.value);
      return None;
    }

    /** The Core block of the main parse. */
    method AddCoreSegment(t: View, mx: int) returns (crashed: Option<PyError>)
      modifies this, wb
      ensures Step(State(), crashed) == CoreSummary(old(State()), t, mx)
    {
      if t.seg.Err? {
        return Some(t.seg.error);
      }
      var (seg, core) := t.seg.value;
      if !core || seg in segs {
        return None;
      }
      var row := |segs| + 2;
      wb.WriteToSummary(row, 1, VStr(seg));
      wb.WriteToSummary(row, 2, VInt(mx));
      var v := SegRatio(mx, t.cktGet);
      if v.Err? {
        return Some(v.error);
      }
      wb.WriteToSummary(row, 3, v.value);
      segs := segs + [seg];
      return None;
    }

    /** `prtgMainParse` on the copy stored under week 0. */
    method MainParse(i: int, t: View, pct: seq<real> --> int) returns (crashed: Option<PyError>)
      requires 0 in dict && PctTotal(pct)
      modifies this, wb
      ensures Step(State(), crashed) == MainParseSt(old(State()), i, t, pct)
    {
      var traffic := NormalizeChannels(0);
      if traffic.Err? {
        return Some(traffic.error);
      }
      var (maxCell, mx) := MaxCell(if t.up then traffic.value.1 else traffic.value.0, pct);
      crashed := WriteMainCells(i, t, maxCell, mx);
      if crashed.Some? {
        return;
      }
      if t.edge {
        wb.FillRow(i, 6);
      }
      crashed := AddCoreSegment(t, mx);
    }

    /** `prtgExtendHistParse` on the copy stored under week w. */
    method ExtendParse(w: int, i: int, t: View, pct: seq<real> --> int) returns (crashed: Option<PyError>)
      requires w in dict && PctTotal(pct)
      modifies this, wb
      ensures Step(State(), crashed) == ExtendParseSt(old(State()), w, i, t, pct)
    {
      var traffic := NormalizeChannels(w);
      if traffic.Err? {
        return Some(traffic.error);
      }
      crashed := WriteExtendCells(w, i, t, if t.up then traffic.value.1 else traffic.value.0, pct);
    }

    /** The cells of the extended parse once both channels are scaled. */
    method WriteExtendCells(w: int, i: int, t: View, series: seq<real>, pct: seq<real> --> int) returns (crashed: Option<PyError>)
      requires PctTotal(pct)
      modifies wb
      ensures Step(State(), crashed) == ExtendCells(old(State()), w, i, t, series, pct)
    {
      var v5 := FloatCell(t.ckt);
      if v5.Err? {
        return Some(v5.error);
      }
      wb.WriteToSheet(i, 5, v5.value);
      var mx := MaxCell(series, pct).1;
      if t.seg.Err? {
        return Some(t.seg.error);
      }
      var (seg, core) := t.seg.value;
      if core && seg !in segs {
        var v := SegRatio(mx, t.cktGet);
        if v.Err? {
          return Some(v.error);
        }
        wb.WriteToSummary(|segs| + 2, 3 + w, v.value);
      }
      var v := RatioCell(mx, t.chokeLimit);
      if v.Err? {
        return Some(v.error);
      }
      wb.main := wb.main[(i, 7 + w) := v.value];
      return None;
    }

    /** `buildComps(loc_index, w, datablock, ...)`. */
    method BuildComps(i: int, w: int, smp: Sample, t: View, pct: seq<real> --> int) returns (crashed: Option<PyError>)
      requires PctTotal(pct)
      modifies this, wb
      ensures Step(State(), crashed) == BuildCompsSt(old(State()), i, w, smp, t, pct)
    {
      var c := CompCopy(smp);
      if c.None? {
        return None;
      }
      dict := dict[w := c.value];
      if w == 0 {
        crashed := MainParse(i, t, pct);
      } else {
        crashed := ExtendParse(w, i, t, pct);
      }
      if crashed == Some(KeyError) {
        crashed := None;
      }
    }

    /** One pass of the `storeAPIResponse` loop. */
    method VisitSample(loc: int, t: View, hist: seq<Sample>, k: nat, pct: seq<real> --> int) returns (crashed: Option<PyError>)
      requires PctTotal(pct)
      modifies this, wb
      ensures Step(State(), crashed) == VisitSt(old(State()), loc, t, hist, k, pct)
    {
      if k >= |hist| {
        return Some(IndexError);
      }
      var smp := hist[k];
      if "datetime" !in smp.fields {
        return Some(KeyError);
      }
      var bucket := Classify(smp.daysBack);
      if bucket.Week? {
        crashed := BuildComps(loc, bucket.w, smp, t, pct);
      } else {
        crashed := None;
      }
    }

    /** `storeAPIResponse(loc_index, ..., historicResponseData, sensor, ...)`. */
    method StoreAPIResponse(loc: int, resp: Response, t: View, pct: seq<real> --> int) returns (crashed: Option<PyError>)
      requires PctTotal(pct)
      modifies this, wb
      ensures Step(State(), crashed) == StoreSt(old(State()), loc, t, resp, pct)
    {
      ghost var goal := StoreSt(State(), loc, t, resp, pct);
      for i := 0 to Passes(resp.treesize)
        invariant goal == StoreFrom(State(), loc, t, resp.histdata, i, Passes(resp.treesize), pct)
      {
        ghost var st0 := State();
        crashed := VisitSample(loc, t, resp.histdata, i, pct);
        StoreStep(st0, State(), crashed, loc, t, resp.histdata, i, Passes(resp.treesize), pct);
        if crashed.Some? {
          return;
        }
      }
      crashed := None;
    }

    /** The row-5 formulas `prtgMainCall` writes after each sensor. */
    method WriteTotals()
      modifies wb
      ensures (wb.main, wb.summary, wb.fills) == (old(wb.main), Totals(old(State())).summary, old(wb.fills))
    {
      wb.summary := wb.summary[(5, 2) := VStr("=SUM(B2:B4)")];
      wb.summary := wb.summary[(5, 3) := VStr("=SUM(C2:C4)")];
      wb.summary := wb.summary[(5, 4) := VStr("=SUM(D2:D4)")];
      wb.summary := wb.summary[(5, 5) := VStr("=SUM(E2:E4)")];
      wb.summary := wb.summary[(5, 6) := VStr("=SUM(F2:F4)")];
    }

    /** `prtgMainCall(sensordata, ...)`: `loc_index` starts at 2 and advances once per sensor. */
    method PrtgMainCall(sensors: seq<Sensor>, api: Sensor -> Response, pct: seq<real> --> int)
      returns (loc: int, crashed: Option<PyError>)
      requires PctTotal(pct)
      modifies this, wb
      ensures Call(loc, Step(State(), crashed)) == MainCallSt(old(State()), sensors, api, pct)
    {
      ghost var goal := MainCallSt(State(), sensors, api, pct);
      ghost var views := Views(sensors);
      loc := 2;
      for k := 0 to |sensors|
        invariant goal == MainCallFrom(State(), loc, sensors, views, api, pct, k)
      {
        var resp := api(sensors[k]);
        if resp.status != 200 {
          return loc, Some(Exit(1));
        }
        var t := SensorTags(sensors, k);
        ghost var st0 := State();
        crashed := StoreAPIResponse(loc, resp, t, pct);
        MainCallStep(st0, Step(State(), crashed), loc, sensors, views, api, pct, k);
        if crashed.Some? {
          return;
        }
        WriteTotals();
        loc := loc + 1;
      }
      crashed := None;
    }
  }

  // ---------------------------------------------------------------------------
  // Properties of one parse
  // ---------------------------------------------------------------------------

  /** Cell `k` is the same in both maps: present in both with one value, or in neither. */
  predicate Same(m0: map<Cell, Value>, m1: map<Cell, Value>, k: Cell) {
    (k in m1 <==> k in m0) && (k in m1 ==> m1[k] == m0[k])
  }

  /** The cells a parse copies from the tags are never `''`, so each is written;
      a Core segment name is not `''` either. */
  predicate Written(t: View) {
    t.location != VStr("") && t.choke != VStr("") &&
    (t.seg.Ok? && t.seg.value.1 ==> t.seg.value.0 != "")
  }

  /** Every view of a real tag dictionary is `Written`. */
  lemma {:induction false} ViewWritten(p: Props)
    ensures Written(ViewOf(p))
  {
    var t := ViewOf(p);
    if Truthy(p, "kpi_siteid") {
      assert |t.location.s| == |p["kpi_siteid"]| > 0;
    }
  }

  /** The main parse changes no cell outside columns 1..7 of row `i`. */
  lemma {:induction false} MainRowKeeps(m: map<Cell, Value>, i: int, t: View, maxCell: Value, mx: int, k: Cell)
    requires k.0 != i || k.1 < 1 || 7 < k.1
    ensures Same(m, MainRowCells(m, i, t, maxCell, mx).0, k)
  {
  }

  /** Columns 1..3 of row `i` are always written. */
  lemma {:induction false} MainRowFirst(m: map<Cell, Value>, i: int, t: View, maxCell: Value, mx: int)
    requires Written(t) && maxCell != VStr("")
    ensures var m1 := MainRowCells(m, i, t, maxCell, mx).0;
      (i, 1) in m1 && m1[(i, 1)] == t.location && (i, 2) in m1 && m1[(i, 2)] == maxCell &&
      (i, 3) in m1 && m1[(i, 3)] == t.choke
  {
  }

  /** The row is complete exactly when none of the four numeric cells raises,
      and then columns 4..7 hold the two limits and the two utilisations. */
  lemma {:induction false} MainRowComplete(m: map<Cell, Value>, i: int, t: View, maxCell: Value, mx: int)
    ensures var (m1, err) := MainRowCells(m, i, t, maxCell, mx);
      (err.None? <==> FloatCell(t.chokeLimit).Ok? && FloatCell(t.ckt).Ok? &&
                      RatioCell(mx, t.ckt).Ok? && RatioCell(mx, t.chokeLimit).Ok?) &&
      (err.None? ==>
         (i, 4) in m1 && m1[(i, 4)] == FloatCell(t.chokeLimit).value &&
         (i, 5) in m1 && m1[(i, 5)] == FloatCell(t.ckt).value &&
         (i, 6) in m1 && m1[(i, 6)] == RatioCell(mx, t.ckt).value &&
         (i, 7) in m1 && m1[(i, 7)] == RatioCell(mx, t.chokeLimit).value)
  {
  }

  /** `normalize_traffic` touches `prtgDataDict[w]` and nothing else. */
  lemma {:induction false} NormalizeBothKeeps(st: St, w: int)
    requires w in st.dict
    ensures var st1 := NormalizeBoth(st, w).0;
      w in st1.dict && st1 == st.(dict := st.dict[w := st1.dict[w]])
  {
    if ScaleField(st.dict[w], TrafficIn).Err? {
      assert st.dict[w := st.dict[w]] == st.dict;
    }
  }

  /** The Core block changes only the summary row `len(kpi_seg_arr) + 2`,
      columns 1..3, and `kpi_seg_arr`, which either stays or gains the new
      Core segment at its end. */
  lemma {:induction false} CoreSummaryKeeps(st: St, t: View, mx: int, k: Cell)
    ensures var out := CoreSummary(st, t, mx).st;
      out.main == st.main && out.fills == st.fills && out.dict == st.dict &&
      (k.0 != |st.segs| + 2 || k.1 < 1 || 3 < k.1 ==> Same(st.summary, out.summary, k)) &&
      (out.segs == st.segs ||
       (t.seg.Ok? && t.seg.value.1 && t.seg.value.0 !in st.segs && out.segs == st.segs + [t.seg.value.0]))
  {
    if t.seg.Ok? && t.seg.value.1 && t.seg.value.0 !in st.segs {
      var row := |st.segs| + 2;
      var seg := t.seg.value.0;
      var s1 := Put(st.summary, row, 1, VStr(seg));
      var s2 := Put(s1, row, 2, VInt(mx));
      PutCell(st.summary, row, 1, VStr(seg), k);
      PutCell(s1, row, 2, VInt(mx), k);
      if SegRatio(mx, t.cktGet).Ok? {
        PutCell(s2, row, 3, SegRatio(mx, t.cktGet).value, k);
      }
    }
  }

  /** An existing or non-Core segment, or one whose name cannot be read, is
      never appended; a new Core segment is appended exactly when its ratio
      can be computed, after its row got name, maximum and ratio. */
  lemma {:induction false} CoreSummaryRow(st: St, t: View, mx: int)
    requires Written(t)
    ensures var out := CoreSummary(st, t, mx);
      (t.seg.Err? ==> out == Step(st, Some(t.seg.error))) &&
      (t.seg.Ok? && (!t.seg.value.1 || t.seg.value.0 in st.segs) ==> out == Step(st, None)) &&
      (t.seg.Ok? && t.seg.value.1 && t.seg.value.0 !in st.segs ==>
         var row := |st.segs| + 2;
         (row, 1) in out.st.summary && out.st.summary[(row, 1)] == VStr(t.seg.value.0) &&
         (row, 2) in out.st.summary && out.st.summary[(row, 2)] == VInt(mx) &&
         (out.crashed.None? <==> SegRatio(mx, t.cktGet).Ok?) &&
         (out.crashed.None? ==>
            out.st.segs == st.segs + [t.seg.value.0] &&
            (row, 3) in out.st.summary && out.st.summary[(row, 3)] == SegRatio(mx, t.cktGet).value) &&
         (out.crashed.Some? ==> out.st.segs == st.segs && out.crashed == Some(SegRatio(mx, t.cktGet).error)))
  {
  }

  /** `prtgMainParse` changes main-sheet row `i` columns 1..7, the summary row
      a new Core segment takes, the blue fill of columns A..F of row `i` when
      the sensor is an edge, `prtgDataDict['0 Weeks Back']`, and appends at
      most the new Core segment to `kpi_seg_arr`; nothing else. */
  lemma {:induction false} MainParseKeeps(st: St, i: int, t: View, pct: seq<real> --> int, k: Cell)
    requires 0 in st.dict && PctTotal(pct)
    ensures var out := MainParseSt(st, i, t, pct);
      (k.0 != i || k.1 < 1 || 7 < k.1 ==> Same(st.main, out.st.main, k)) &&
      (k.0 != |st.segs| + 2 || k.1 < 1 || 3 < k.1 ==> Same(st.summary, out.st.summary, k)) &&
      (out.st.fills == st.fills || (t.edge && out.st.fills == st.fills + Span(i, 1, 6))) &&
      (!t.edge ==> out.st.fills == st.fills) &&
      (t.edge && out.crashed.None? ==> out.st.fills == st.fills + Span(i, 1, 6)) &&
      (out.st.segs == st.segs ||
       (t.seg.Ok? && t.seg.value.1 && t.seg.value.0 !in st.segs && out.st.segs == st.segs + [t.seg.value.0])) &&
      0 in out.st.dict && out.st.dict == st.dict[0 := out.st.dict[0]]
  {
    NormalizeBothKeeps(st, 0);
    var (st1, traffic) := NormalizeBoth(st, 0);
    if traffic.Ok? {
      var (tin, tout) := traffic.value;
      var (maxCell, mx) := MaxCell(if t.up then tout else tin, pct);
      if k.0 != i || k.1 < 1 || 7 < k.1 {
        MainRowKeeps(st1.main, i, t, maxCell, mx, k);
      }
      var (m, err) := MainRowCells(st1.main, i, t, maxCell, mx);
      var st2 := st1.(main := m);
      if err.None? {
        var st3 := if t.edge then st2.(fills := st2.fills + Span(i, 1, 6)) else st2;
        CoreSummaryKeeps(st3, t, mx, k);
      }
    }
  }

  /** The main parse rewrites only `prtgDataDict['0 Weeks Back']`. */
  lemma {:induction false} MainParseDict(st: St, i: int, t: View, pct: seq<real> --> int)
    requires 0 in st.dict && PctTotal(pct)
    ensures var out := MainParseSt(st, i, t, pct).st;
      0 in out.dict && out.dict == st.dict[0 := out.dict[0]]
  {
    NormalizeBothKeeps(st, 0);
    var (st1, traffic) := NormalizeBoth(st, 0);
    if traffic.Ok? {
      var (tin, tout) := traffic.value;
      var (maxCell, mx) := MaxCell(if t.up then tout else tin, pct);
      var (m, err) := MainRowCells(st1.main, i, t, maxCell, mx);
      var st2 := st1.(main := m);
      if err.None? {
        var st3 := if t.edge then st2.(fills := st2.fills + Span(i, 1, 6)) else st2;
        CoreSummaryKeeps(st3, t, mx, (0, 0));
      }
    }
  }

  /** When `prtgMainParse` returns normally, normalisation succeeded and row
      `i` holds the location, the maximum of the channel `t.up` selects, the
      choke, the two limits and the two utilisations of that maximum; it
      returns normally only if the four numeric cells could be computed. */
  lemma {:induction false} MainParseRow(st: St, i: int, t: View, pct: seq<real> --> int)
    requires 0 in st.dict && PctTotal(pct) && Written(t)
    ensures var out := MainParseSt(st, i, t, pct);
      var traffic := NormalizeBoth(st, 0).1;
      out.crashed.None? ==>
        traffic.Ok? &&
        FloatCell(t.chokeLimit).Ok? && FloatCell(t.ckt).Ok? && t.ckt != Limit(0.0) && t.chokeLimit != Limit(0.0) &&
        (var (maxCell, mx) := MaxCell(if t.up then traffic.value.1 else traffic.value.0, pct);
         (i, 1) in out.st.main && out.st.main[(i, 1)] == t.location &&
         (i, 2) in out.st.main && out.st.main[(i, 2)] == maxCell &&
         (i, 3) in out.st.main && out.st.main[(i, 3)] == t.choke &&
         (i, 4) in out.st.main && out.st.main[(i, 4)] == FloatCell(t.chokeLimit).value &&
         (i, 5) in out.st.main && out.st.main[(i, 5)] == FloatCell(t.ckt).value &&
         (i, 6) in out.st.main && out.st.main[(i, 6)] == RatioCell(mx, t.ckt).value &&
         (i, 7) in out.st.main && out.st.main[(i, 7)] == RatioCell(mx, t.chokeLimit).value)
  {
    var (st1, traffic) := NormalizeBoth(st, 0);
    if traffic.Ok? {
      var (tin, tout) := traffic.value;
      var (maxCell, mx) := MaxCell(if t.up then tout else tin, pct);
      MainRowComplete(st1.main, i, t, maxCell, mx);
      var (m, err) := MainRowCells(st1.main, i, t, maxCell, mx);
      if err.None? {
        MainRowFirst(st1.main, i, t, maxCell, mx);
        var st2 := st1.(main := m);
        var st3 := if t.edge then st2.(fills := st2.fills + Span(i, 1, 6)) else st2;
        CoreSummaryKeeps(st3, t, mx, (i, 1));
        CoreSummaryKeeps(st3, t, mx, (i, 2));
        CoreSummaryKeeps(st3, t, mx, (i, 6));
        CoreSummaryKeeps(st3, t, mx, (i, 7));
      }
    }
  }

  /** The cells of `prtgExtendHistParse`: it changes only main-sheet cells
      (i, 5) and (i, 7 + w) and the ratio cell in column 3 + w of the row a
      new Core segment would take. It completes exactly when none of
      `float(kpi_cktmaxlimit)`, the Core test, the summary ratio of a new
      Core segment and the choke ratio raises; (i, 5) then holds the circuit
      limit, (i, 7 + w) the choke utilisation of the week's maximum, and the
      summary cell of a new Core segment its circuit ratio. */
  lemma {:induction false} ExtendCellsKeeps(st: St, w: int, i: int, t: View, series: seq<real>, pct: seq<real> --> int, k: Cell)
    requires PctTotal(pct)
    ensures var out := ExtendCells(st, w, i, t, series, pct);
      (k != (i, 5) && k != (i, 7 + w) ==> Same(st.main, out.st.main, k)) &&
      (k != (|st.segs| + 2, 3 + w) ==> Same(st.summary, out.st.summary, k)) &&
      out.st.fills == st.fills && out.st.segs == st.segs && out.st.dict == st.dict &&
      (out.crashed.None? ==> (i, 7 + w) in out.st.main && out.st.main[(i, 7 + w)] != VStr("") &&
                             FloatCell(t.ckt).Ok? && t.chokeLimit != Unparsable && t.chokeLimit != Limit(0.0))
    ensures var out := ExtendCells(st, w, i, t, series, pct);
      var mx := MaxCell(series, pct).1;
      (out.crashed.None? <==>
         FloatCell(t.ckt).Ok? && t.seg.Ok? &&
         (t.seg.value.1 && t.seg.value.0 !in st.segs ==> SegRatio(mx, t.cktGet).Ok?) &&
         RatioCell(mx, t.chokeLimit).Ok?) &&
      (FloatCell(t.ckt).Ok? && 7 + w != 5 ==>
         (i, 5) in out.st.main && out.st.main[(i, 5)] == FloatCell(t.ckt).value) &&
      (out.crashed.None? ==> out.st.main[(i, 7 + w)] == RatioCell(mx, t.chokeLimit).value) &&
      (out.crashed.None? && t.seg.value.1 && t.seg.value.0 !in st.segs ==>
         (|st.segs| + 2, 3 + w) in out.st.summary &&
         out.st.summary[(|st.segs| + 2, 3 + w)] == SegRatio(mx, t.cktGet).value)
  {
    if FloatCell(t.ckt).Ok? {
      var v5 := FloatCell(t.ckt).value;
      PutCell(st.main, i, 5, v5, k);
      var st2 := st.(main := Put(st.main, i, 5, v5));
      var mx := MaxCell(series, pct).1;
      if t.seg.Ok? && t.seg.value.1 && t.seg.value.0 !in st2.segs && SegRatio(mx, t.cktGet).Ok? {
        PutCell(st2.summary, |st2.segs| + 2, 3 + w, SegRatio(mx, t.cktGet).value, k);
      }
    }
  }

  /** `prtgExtendHistParse` for week w changes what its cells change and
      `prtgDataDict[w]`; it keeps the fill and `kpi_seg_arr`. A failed
      normalisation ends it with that exception; otherwise its cells hold the
      values `ExtendCellsKeeps` states, for the selected channel's maximum. */
  lemma {:induction false} ExtendParseKeeps(st: St, w: int, i: int, t: View, pct: seq<real> --> int, k: Cell)
    requires w in st.dict && PctTotal(pct)
    ensures var out := ExtendParseSt(st, w, i, t, pct);
      (k != (i, 5) && k != (i, 7 + w) ==> Same(st.main, out.st.main, k)) &&
      (k != (|st.segs| + 2, 3 + w) ==> Same(st.summary, out.st.summary, k)) &&
      out.st.fills == st.fills && out.st.segs == st.segs &&
      w in out.st.dict && out.st.dict == st.dict[w := out.st.dict[w]] &&
      (out.crashed.None? ==> (i, 7 + w) in out.st.main && out.st.main[(i, 7 + w)] != VStr("") &&
                             FloatCell(t.ckt).Ok? && t.chokeLimit != Unparsable && t.chokeLimit != Limit(0.0))
    ensures var out := ExtendParseSt(st, w, i, t, pct);
      var traffic := NormalizeBoth(st, w).1;
      (traffic.Err? ==> out.crashed == Some(traffic.error)) &&
      (traffic.Ok? ==>
         var mx := MaxCell(if t.up then traffic.value.1 else traffic.value.0, pct).1;
         (out.crashed.None? <==>
            FloatCell(t.ckt).Ok? && t.seg.Ok? &&
            (t.seg.value.1 && t.seg.value.0 !in st.segs ==> SegRatio(mx, t.cktGet).Ok?) &&
            RatioCell(mx, t.chokeLimit).Ok?) &&
         (FloatCell(t.ckt).Ok? && 7 + w != 5 ==>
            (i, 5) in out.st.main && out.st.main[(i, 5)] == FloatCell(t.ckt).value) &&
         (out.crashed.None? ==> out.st.main[(i, 7 + w)] == RatioCell(mx, t.chokeLimit).value) &&
         (out.crashed.None? && t.seg.value.1 && t.seg.value.0 !in st.segs ==>
            (|st.segs| + 2, 3 + w) in out.st.summary &&
            out.st.summary[(|st.segs| + 2, 3 + w)] == SegRatio(mx, t.cktGet).value))
  {
    NormalizeBothKeeps(st, w);
    var (st1, traffic) := NormalizeBoth(st, w);
    if traffic.Ok? {
      var (tin, tout) := traffic.value;
      ExtendCellsKeeps(st1, w, i, t, if t.up then tout else tin, pct, k);
    }
  }

  /** The copy exists exactly when the eight traffic fields are all present;
      it then has exactly the nine keys, the rewritten date, and the sample's
      own values for the other eight. */
  lemma {:induction false} CompCopyFields(s: Sample)
    ensures CompCopy(s).Some? <==> Nine - {"datetime"} <= s.fields.Keys
    ensures CompCopy(s).Some? ==>
      var c := CompCopy(s).value;
      c.Keys == Nine && c["datetime"] == FStr(s.date) &&
      forall key :: key in Nine && key != "datetime" ==> c[key] == s.fields[key]
  {
    if Nine - {"datetime"} <= s.fields.Keys {
      assert "Traffic In (speed)" in Nine - {"datetime"};
      assert "Traffic Out (speed)" in Nine - {"datetime"};
      assert "Traffic Total (volume)" in Nine - {"datetime"};
      assert "Traffic Total (speed)" in Nine - {"datetime"};
      assert "Traffic In (volume)" in Nine - {"datetime"};
      assert "Traffic Out (volume)" in Nine - {"datetime"};
      assert "Downtime" in Nine - {"datetime"};
      assert "coverage" in Nine - {"datetime"};
    }
  }

  /** `buildComps` without a full copy changes nothing; with one, the block of
      week w is replaced and week 0 goes to the main parse, any other week to
      the extended one; the KeyError handler means it never ends in KeyError. */
  lemma {:induction false} BuildCompsDispatch(st: St, i: int, w: int, smp: Sample, t: View, pct: seq<real> --> int)
    requires PctTotal(pct)
    ensures var out := BuildCompsSt(st, i, w, smp, t, pct);
      out.crashed != Some(KeyError) &&
      (CompCopy(smp).None? ==> out == Step(st, None)) &&
      (CompCopy(smp).Some? ==>
        var st1 := st.(dict := st.dict[w := CompCopy(smp).value]);
        var parsed := if w == 0 then MainParseSt(st1, i, t, pct) else ExtendParseSt(st1, w, i, t, pct);
        out.st == parsed.st && (parsed.crashed != Some(KeyError) ==> out.crashed == parsed.crashed))
  {
  }

  /** Every `buildComps` changes at most the block of week w in `prtgDataDict`. */
  lemma {:induction false} BuildCompsDict(st: St, i: int, w: int, smp: Sample, t: View, pct: seq<real> --> int, x: int)
    requires PctTotal(pct) && x != w
    ensures var out := BuildCompsSt(st, i, w, smp, t, pct).st;
      (x in out.dict <==> x in st.dict) && (x in st.dict ==> out.dict[x] == st.dict[x])
  {
    if CompCopy(smp).Some? {
      var st1 := st.(dict := st.dict[w := CompCopy(smp).value]);
      BuildCompsDispatch(st, i, w, smp, t, pct);
      if w == 0 {
        MainParseDict(st1, i, t, pct);
        assert BuildCompsSt(st, i, w, smp, t, pct).st == MainParseSt(st1, i, t, pct).st;
      } else {
        ExtendParseKeeps(st1, w, i, t, pct, (0, 0));
        assert BuildCompsSt(st, i, w, smp, t, pct).st == ExtendParseSt(st1, w, i, t, pct).st;
      }
    }
  }

  /** A later week touches neither the fill nor `kpi_seg_arr`. */
  lemma {:induction false} BuildCompsLater(st: St, i: int, w: int, smp: Sample, t: View, pct: seq<real> --> int)
    requires PctTotal(pct) && w != 0
    ensures var out := BuildCompsSt(st, i, w, smp, t, pct).st;
      out.fills == st.fills && out.segs == st.segs
  {
    if CompCopy(smp).Some? {
      var st1 := st.(dict := st.dict[w := CompCopy(smp).value]);
      ExtendParseKeeps(st1, w, i, t, pct, (0, 0));
    }
  }

  // ---------------------------------------------------------------------------
  // kpi_seg_arr: one summary row per Core segment
  // ---------------------------------------------------------------------------

  /** `kpi_seg_arr` holds no segment twice, and its j-th segment is the name
      in column A of summary row j + 2. */
  predicate SegRows(st: St) {
    (forall a, b :: 0 <= a < b < |st.segs| ==> st.segs[a] != st.segs[b]) &&
    (forall j :: 0 <= j < |st.segs| ==> NameAt(st.summary, j + 2) == Some(st.segs[j]))
  }

  /** The name in column A of a summary row, when one stands there. */
  function NameAt(summary: map<Cell, Value>, row: int): (n: Option<string>)
    ensures n.Some? <==> (row, 1) in summary && summary[(row, 1)].VStr?
    ensures n.Some? ==> summary[(row, 1)] == VStr(n.value)
  {
    if (row, 1) in summary && summary[(row, 1)].VStr? then Some(summary[(row, 1)].s) else None
  }

  /** `SegRows` depends on the summary sheet and `kpi_seg_arr` alone. */
  lemma {:induction false} SegRowsFrame(st: St, st1: St)
    requires SegRows(st) && st1.summary == st.summary && st1.segs == st.segs
    ensures SegRows(st1)
  {
  }

  lemma {:induction false} SegRowsAt(st: St, j: int)
    requires SegRows(st) && 0 <= j < |st.segs|
    ensures (j + 2, 1) in st.summary && st.summary[(j + 2, 1)] == VStr(st.segs[j])
  {
    assert NameAt(st.summary, j + 2) == Some(st.segs[j]);
  }

  /** Under `SegRows`, two rows of the segment table name the same segment only if they are one row. */
  lemma {:induction false} SegRowsUnique(st: St, a: int, b: int)
    requires SegRows(st) && 0 <= a < |st.segs| && 0 <= b < |st.segs|
    requires (a + 2, 1) in st.summary && (b + 2, 1) in st.summary
    requires st.summary[(a + 2, 1)] == st.summary[(b + 2, 1)]
    ensures a == b
  {
    SegRowsAt(st, a);
    SegRowsAt(st, b);
  }

  /** The Core block keeps `SegRows` and only ever extends `kpi_seg_arr`. */
  lemma {:induction false} CoreSummaryRows(st: St, t: View, mx: int)
    requires Written(t) && SegRows(st)
    ensures var out := CoreSummary(st, t, mx).st;
      SegRows(out) && st.segs <= out.segs
  {
    var out := CoreSummary(st, t, mx).st;
    CoreSummaryKeeps(st, t, mx, (0, 0));
    CoreSummaryRow(st, t, mx);
    forall j | 0 <= j < |out.segs|
      ensures NameAt(out.summary, j + 2) == Some(out.segs[j])
    {
      if j < |st.segs| {
        CoreSummaryKeeps(st, t, mx, (j + 2, 1));
        SegRowsAt(st, j);
        assert out.segs[j] == st.segs[j];
      }
    }
    if out.segs != st.segs {
      var seg := t.seg.value.0;
      assert out.segs == st.segs + [seg] && seg !in st.segs;
      forall a, b | 0 <= a < b < |out.segs|
        ensures out.segs[a] != out.segs[b]
      {
        assert out.segs[a] == st.segs[a];
        if b == |st.segs| {
          assert out.segs[b] == seg && st.segs[a] in st.segs;
        } else {
          assert out.segs[b] == st.segs[b];
        }
      }
    }
  }

  /** The main parse keeps `SegRows` and only ever extends `kpi_seg_arr`. */
  lemma {:induction false} MainParseRows(st: St, i: int, t: View, pct: seq<real> --> int)
    requires 0 in st.dict && PctTotal(pct) && Written(t) && SegRows(st)
    ensures var out := MainParseSt(st, i, t, pct).st;
      SegRows(out) && st.segs <= out.segs
  {
    NormalizeBothKeeps(st, 0);
    var (st1, traffic) := NormalizeBoth(st, 0);
    if traffic.Ok? {
      var (tin, tout) := traffic.value;
      var (maxCell, mx) := MaxCell(if t.up then tout else tin, pct);
      var (m, err) := MainRowCells(st1.main, i, t, maxCell, mx);
      var st2 := st1.(main := m);
      if err.None? {
        var st3 := if t.edge then st2.(fills := st2.fills + Span(i, 1, 6)) else st2;
        SegRowsFrame(st, st3);
        CoreSummaryRows(st3, t, mx);
      }
    }
  }

  /** A later week writes no column A cell, so it keeps `SegRows`. */
  lemma {:induction false} ExtendParseRows(st: St, w: int, i: int, t: View, pct: seq<real> --> int)
    requires w in st.dict && PctTotal(pct) && w > 0 && SegRows(st)
    ensures var out := ExtendParseSt(st, w, i, t, pct).st;
      SegRows(out) && st.segs == out.segs
  {
    var out := ExtendParseSt(st, w, i, t, pct).st;
    ExtendParseKeeps(st, w, i, t, pct, (0, 0));
    forall j | 0 <= j < |out.segs|
      ensures NameAt(out.summary, j + 2) == Some(out.segs[j])
    {
      ExtendParseKeeps(st, w, i, t, pct, (j + 2, 1));
      SegRowsAt(st, j);
    }
  }

  /** `buildComps` keeps `SegRows` for every week. */
  lemma {:induction false} BuildCompsRows(st: St, i: int, w: int, smp: Sample, t: View, pct: seq<real> --> int)
    requires PctTotal(pct) && w >= 0 && Written(t) && SegRows(st)
    ensures var out := BuildCompsSt(st, i, w, smp, t, pct).st;
      SegRows(out) && st.segs <= out.segs
  {
    if CompCopy(smp).Some? {
      var st1 := st.(dict := st.dict[w := CompCopy(smp).value]);
      BuildCompsDispatch(st, i, w, smp, t, pct);
      SegRowsFrame(st, st1);
      if w == 0 {
        MainParseRows(st1, i, t, pct);
        assert BuildCompsSt(st, i, w, smp, t, pct).st == MainParseSt(st1, i, t, pct).st;
      } else {
        ExtendParseRows(st1, w, i, t, pct);
        assert BuildCompsSt(st, i, w, smp, t, pct).st == ExtendParseSt(st1, w, i, t, pct).st;
      }
    }
  }

  /** One pass of the `storeAPIResponse` loop keeps `SegRows`. */
  lemma {:induction false} VisitRows(st: St, loc: int, t: View, hist: seq<Sample>, k: nat, pct: seq<real> --> int)
    requires PctTotal(pct) && Written(t) && SegRows(st)
    ensures var out := VisitSt(st, loc, t, hist, k, pct).st;
      SegRows(out) && st.segs <= out.segs
  {
    if k < |hist| && "datetime" in hist[k].fields && Classify(hist[k].daysBack).Week? {
      BuildCompsRows(st, loc, Classify(hist[k].daysBack).w, hist[k], t, pct);
    }
  }

  /** The whole `storeAPIResponse` loop keeps `SegRows`. */
  lemma {:induction false} StoreFromRows(st: St, loc: int, t: View, hist: seq<Sample>, k: nat, n: nat, pct: seq<real> --> int)
    requires PctTotal(pct) && Written(t) && SegRows(st)
    ensures var out := StoreFrom(st, loc, t, hist, k, n, pct).st;
      SegRows(out) && st.segs <= out.segs
    decreases n - k
  {
    if k < n {
      var o := VisitSt(st, loc, t, hist, k, pct);
      VisitRows(st, loc, t, hist, k, pct);
      if o.crashed.None? {
        assert StoreFrom(st, loc, t, hist, k, n, pct) == StoreFrom(o.st, loc, t, hist, k + 1, n, pct);
        StoreFromRows(o.st, loc, t, hist, k + 1, n, pct);
      }
    }
  }

  /** The SUM formulas go to columns B..F, so they keep `SegRows`. */
  lemma {:induction false} TotalsRows(st: St)
    requires SegRows(st)
    ensures SegRows(Totals(st)) && Totals(st).segs == st.segs
  {
    var out := Totals(st);
    forall j | 0 <= j < |out.segs|
      ensures NameAt(out.summary, j + 2) == Some(out.segs[j])
    {
      SegRowsAt(st, j);
    }
  }

  /** Every view of a list of sensors is `Written`. */
  predicate AllWritten(views: seq<View>) {
    forall k :: 0 <= k < |views| ==> Written(views[k])
  }

  /** The remaining iterations of `prtgMainCall` keep `SegRows`. */
  lemma {:induction false} MainCallRows(st: St, loc: int, sensors: seq<Sensor>, views: seq<View>, api: Sensor -> Response,
                                        pct: seq<real> --> int, k: nat)
    requires PctTotal(pct) && |views| == |sensors| && AllWritten(views) && SegRows(st)
    ensures var out := MainCallFrom(st, loc, sensors, views, api, pct, k).step.st;
      SegRows(out) && st.segs <= out.segs
    decreases |sensors| - k
  {
    if k < |sensors| && api(sensors[k]).status == 200 {
      var resp := api(sensors[k]);
      StoreFromRows(st, loc, views[k], resp.histdata, 0, Passes(resp.treesize), pct);
      var out := StoreSt(st, loc, views[k], resp, pct);
      if out.crashed.None? {
        TotalsRows(out.st);
        MainCallRows(Totals(out.st), loc + 1, sensors, views, api, pct, k + 1);
      }
    }
  }

  /** `prtgMainCall` keeps `SegRows`: starting from an empty `kpi_seg_arr`,
      every Core segment gets one summary row and is never listed twice. */
  lemma {:induction false} MainCallSegments(st: St, sensors: seq<Sensor>, api: Sensor -> Response, pct: seq<real> --> int)
    requires PctTotal(pct) && SegRows(st)
    ensures var out := MainCallSt(st, sensors, api, pct).step.st;
      SegRows(out) && st.segs <= out.segs
  {
    var views := Views(sensors);
    forall k | 0 <= k < |views|
      ensures Written(views[k])
    {
      ViewsAt(sensors, k);
      ViewWritten(ExtractTolerant(sensors[k].tags));
    }
    MainCallRows(st, 2, sensors, views, api, pct, 0);
  }

  // ---------------------------------------------------------------------------
  // The storeAPIResponse and prtgMainCall loops
  // ---------------------------------------------------------------------------

  /** The loop visits indices in order: running it to m and then on to n is
      running it to n, unless it already stopped at an exception. */
  lemma {:induction false} StoreSplit(st: St, loc: int, t: View, hist: seq<Sample>, k: nat, m: nat, n: nat, pct: seq<real> --> int)
    requires PctTotal(pct) && k <= m <= n
    ensures var o := StoreFrom(st, loc, t, hist, k, m, pct);
      StoreFrom(st, loc, t, hist, k, n, pct) == (if o.crashed.Some? then o else StoreFrom(o.st, loc, t, hist, m, n, pct))
    decreases m - k
  {
    if k < m {
      var o := VisitSt(st, loc, t, hist, k, pct);
      assert StoreFrom(st, loc, t, hist, k, n, pct) == if o.crashed.Some? then o else StoreFrom(o.st, loc, t, hist, k + 1, n, pct);
      assert StoreFrom(st, loc, t, hist, k, m, pct) == if o.crashed.Some? then o else StoreFrom(o.st, loc, t, hist, k + 1, m, pct);
      if o.crashed.None? {
        StoreSplit(o.st, loc, t, hist, k + 1, m, n, pct);
      }
    }
  }

  /** Samples at index `treesize` or beyond are never read. */
  lemma {:induction false} StorePrefix(st: St, loc: int, t: View, hist: seq<Sample>, k: nat, n: nat, pct: seq<real> --> int)
    requires PctTotal(pct) && n <= |hist|
    ensures StoreFrom(st, loc, t, hist, k, n, pct) == StoreFrom(st, loc, t, hist[..n], k, n, pct)
    decreases n - k
  {
    if k < n {
      assert hist[..n][k] == hist[k];
      var o := VisitSt(st, loc, t, hist, k, pct);
      assert o == VisitSt(st, loc, t, hist[..n], k, pct);
      if o.crashed.None? {
        StorePrefix(o.st, loc, t, hist, k + 1, n, pct);
      }
    }
  }

  /** A `treesize` beyond the end of `histdata` always ends in an exception:
      the loop returns normally only if it stayed inside the list. */
  lemma {:induction false} StoreInBounds(st: St, loc: int, t: View, hist: seq<Sample>, k: nat, n: nat, pct: seq<real> --> int)
    requires PctTotal(pct) && k <= n
    ensures StoreFrom(st, loc, t, hist, k, n, pct).crashed.None? ==> n <= |hist| || k == n
    decreases n - k
  {
    if k < n {
      var o := VisitSt(st, loc, t, hist, k, pct);
      if o.crashed.None? {
        StoreInBounds(o.st, loc, t, hist, k + 1, n, pct);
      }
    }
  }

  /** When `prtgMainCall` finishes normally, every sensor was fetched with
      status 200 and `loc_index` advanced once per sensor. */
  lemma {:induction false} MainCallAllFetched(st: St, loc: int, sensors: seq<Sensor>, views: seq<View>, api: Sensor -> Response,
                                              pct: seq<real> --> int, k: nat)
    requires PctTotal(pct) && |views| == |sensors| && k <= |sensors|
    ensures var c := MainCallFrom(st, loc, sensors, views, api, pct, k);
      c.step.crashed.None? ==>
        c.loc == loc + |sensors| - k && forall j :: k <= j < |sensors| ==> api(sensors[j]).status == 200
    decreases |sensors| - k
  {
    if k < |sensors| && api(sensors[k]).status == 200 {
      var out := StoreSt(st, loc, views[k], api(sensors[k]), pct);
      if out.crashed.None? {
        var c := MainCallFrom(Totals(out.st), loc + 1, sensors, views, api, pct, k + 1);
        assert MainCallFrom(st, loc, sensors, views, api, pct, k) == c;
        MainCallAllFetched(Totals(out.st), loc + 1, sensors, views, api, pct, k + 1);
        if c.step.crashed.None? {
          forall j | k <= j < |sensors|
            ensures api(sensors[j]).status == 200
          {
            if j > k {
              assert k + 1 <= j < |sensors|;
            }
          }
        }
      }
    }
  }

  /** A non-200 response ends `prtgMainCall` with `exit(1)` at that sensor. */
  lemma {:induction false} MainCallExit(st: St, loc: int, sensors: seq<Sensor>, views: seq<View>, api: Sensor -> Response,
                                        pct: seq<real> --> int, k: nat)
    requires PctTotal(pct) && |views| == |sensors| && k < |sensors| && api(sensors[k]).status != 200
    ensures MainCallFrom(st, loc, sensors, views, api, pct, k) == Call(loc, Step(st, Some(Exit(1))))
  {
  }

  /** After at least one sensor the five SUM formulas stand in row 5 of the
      summary sheet, whatever a fourth segment wrote there. */
  lemma {:induction false} MainCallTotals(st: St, loc: int, sensors: seq<Sensor>, views: seq<View>, api: Sensor -> Response,
                                          pct: seq<real> --> int, k: nat)
    requires PctTotal(pct) && |views| == |sensors| && k < |sensors|
    ensures var out := MainCallFrom(st, loc, sensors, views, api, pct, k).step;
      out.crashed.None? ==>
        (5, 2) in out.st.summary && out.st.summary[(5, 2)] == VStr("=SUM(B2:B4)") &&
        (5, 3) in out.st.summary && out.st.summary[(5, 3)] == VStr("=SUM(C2:C4)") &&
        (5, 4) in out.st.summary && out.st.summary[(5, 4)] == VStr("=SUM(D2:D4)") &&
        (5, 5) in out.st.summary && out.st.summary[(5, 5)] == VStr("=SUM(E2:E4)") &&
        (5, 6) in out.st.summary && out.st.summary[(5, 6)] == VStr("=SUM(F2:F4)")
    decreases |sensors| - k
  {
    if api(sensors[k]).status == 200 {
      var out := StoreSt(st, loc, views[k], api(sensors[k]), pct);
      if out.crashed.None? && k + 1 < |sensors| {
        assert MainCallFrom(st, loc, sensors, views, api, pct, k) == MainCallFrom(Totals(out.st), loc + 1, sensors, views, api, pct, k + 1);
        MainCallTotals(Totals(out.st), loc + 1, sensors, views, api, pct, k + 1);
      }
    }
  }
}

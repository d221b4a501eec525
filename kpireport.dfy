/**
 * kpi_report_bandwidth.py: for every sensor, one fetch over the command-line
 * dates (`sensorsFrameCall`) and one per supplementary window
 * (`extraChokeUtilCalc`), each of which parses the tags, normalises both
 * channels, appends a summary record for a Core segment and computes the
 * utilisations.  The DataFrame writes are not part of this model; what is
 * kept is the sequence of summary records, the sensor counter `i`, and the
 * exception or `exit(1)` that ends the script.
 */
module KpiReport {
  import opened Py
  import opened PyStr
  import opened Tags
  import opened Traffic
  import opened Segments
  import opened Rows
  import opened Windows

  /** The date range of a `historicdata.json` request: the `--start`/`--end`
      options, or a window of `timeWindowFrames` as day offsets. */
  datatype Query = CliDates | Frame(start: int, end: int)

  /** What one fetch contributes: the records it appends to `summary_data`,
      and the exception (or `exit(1)`) raised after them, if any. */
  datatype Emit = Emit(records: seq<CoreRecord>, crashed: Option<PyError>)

  /** Running `b` after `a`: nothing runs once `a` has ended the script. */
  function Then(a: Emit, b: Emit): (r: Emit)
    ensures a.crashed.Some? ==> r == a
    ensures a.crashed.None? ==> r.records == a.records + b.records && r.crashed == b.crashed
  {
    if a.crashed.Some? then a else Emit(a.records + b.records, b.crashed)
  }

  /** The part both passes share: a non-200 status calls `exit(1)`; otherwise
      the tags are parsed, both channels normalised, `max_traffic` computed,
      the `"Core" in` test made and the record appended. `chokeOnly` is the
      window pass, which computes only the choke-point utilisation; the main
      pass computes the circuit utilisation first. */
  function FetchEmit(s: Sensor, f: Fetch, pct: seq<real> --> int, chokeOnly: bool): Emit
    requires PctTotal(pct)
  {
    if f.status != 200 then Emit([], Some(Exit(1)))
    else
      match ExtractStrict(s.tags)
      case Err(e) => Emit([], Some(e))
      case Ok(p) =>
        match SkipScaled(f.histdata, TrafficIn)
        case Err(e) => Emit([], Some(e))
        case Ok(tin) =>
          match SkipScaled(f.histdata, TrafficOut)
          case Err(e) => Emit([], Some(e))
          case Ok(tout) =>
            var mx := MaxCell(Series(p, tin, tout), pct).1;
            match IsCore(p)
            case Err(e) => Emit([], Some(e))
            case Ok(_) =>
              var recs := RecordList(CoreRecordOf(p, mx));
              var ckt := if chokeOnly then Ok(VStr("NA")) else UtilCell(mx, p, "kpi_cktmaxlimit");
              if ckt.Err? then Emit(recs, Some(ckt.error))
              else
                var choke := UtilCell(mx, p, "kpi_chokelimit");
                if choke.Err? then Emit(recs, Some(choke.error)) else Emit(recs, None)
  }

  /** The fetch for supplementary window `k`: `Tstart,Tend = timeWindowFrames(k)`
      raises TypeError when the table has no such window. */
  function WindowEmit(s: Sensor, api: (Sensor, Query) -> Fetch, pct: seq<real> --> int, k: int): Emit
    requires PctTotal(pct)
  {
    match TimeWindowFrames(IdInt(k))
    case None => Emit([], Some(TypeError))
    case Some(fr) => FetchEmit(s, api(s, Frame(fr.0, fr.1)), pct, true)
  }

  /** Windows 1 to n of `for k in range(1, 3)`, in order. */
  function Extra(s: Sensor, api: (Sensor, Query) -> Fetch, pct: seq<real> --> int, n: nat): Emit
    requires PctTotal(pct)
    decreases n
  {
    if n == 0 then Emit([], None) else Then(Extra(s, api, pct, n - 1), WindowEmit(s, api, pct, n))
  }

  /** `extraChokeUtilCalc`: windows 1 and 2, appending to `summary_data`. */
  method ExtraChokeUtilCalc(records: seq<CoreRecord>, s: Sensor, api: (Sensor, Query) -> Fetch, pct: seq<real> --> int)
    returns (summaryData: seq<CoreRecord>, crashed: Option<PyError>)
    requires PctTotal(pct)
    ensures summaryData == records + Extra(s, api, pct, 2).records
    ensures crashed == Extra(s, api, pct, 2).crashed
  {
    summaryData := records;
    crashed := None;
    for k := 1 to 3
      invariant summaryData == records + Extra(s, api, pct, k - 1).records
      invariant Extra(s, api, pct, k - 1).crashed.None?
    {
      ghost var before := Extra(s, api, pct, k - 1).records;
      var frame := TimeWindowFrames(IdInt(k));
      if frame.None? {
        return summaryData, Some(TypeError);
      }
      var response := api(s, Frame(frame.value.0, frame.value.1));
      var e := FetchEmit(s, response, pct, true);
      assert e == WindowEmit(s, api, pct, k);
      AppendAssoc(records, before, e.records);
      summaryData := summaryData + e.records;
      if e.crashed.Some? {
        return summaryData, e.crashed;
      }
    }
  }

  /** Everything one sensor of `sensorsFrameCall` contributes: the main fetch,
      then the supplementary windows. */
  function SensorEmit(s: Sensor, api: (Sensor, Query) -> Fetch, pct: seq<real> --> int): Emit
    requires PctTotal(pct)
  {
    Then(FetchEmit(s, api(s, CliDates), pct, false), Extra(s, api, pct, 2))
  }

  /** The state `sensorsFrameCall` carries: the row counter `i`, `summary_data`
      and the exception that ended the script, if any. */
  datatype KpiPass = KpiPass(i: int, records: seq<CoreRecord>, crashed: Option<PyError>)

  function Visit(p: KpiPass, e: Emit): KpiPass {
    if p.crashed.Some? then p
    else KpiPass(if e.crashed.None? then p.i + 1 else p.i, p.records + e.records, e.crashed)
  }

  /** What each sensor of the list contributes, in loop order. */
  function Emits(sensors: seq<Sensor>, api: (Sensor, Query) -> Fetch, pct: seq<real> --> int): (es: seq<Emit>)
    requires PctTotal(pct)
    ensures |es| == |sensors|
    ensures forall k :: 0 <= k < |sensors| ==> es[k] == SensorEmit(sensors[k], api, pct)
  {
    seq(|sensors|, k requires 0 <= k < |sensors| => SensorEmit(sensors[k], api, pct))
  }

  /** The loop of `sensorsFrameCall` over the sensors' emissions, starting with `i = 5`. */
  function FramePass(records0: seq<CoreRecord>, es: seq<Emit>): KpiPass
    decreases |es|
  {
    if es == [] then KpiPass(5, records0, None)
    else Visit(FramePass(records0, es[..|es| - 1]), es[|es| - 1])
  }

  lemma {:induction false} FramePassCrashSticky(records0: seq<CoreRecord>, es: seq<Emit>, n: nat)
    requires n <= |es|
    requires FramePass(records0, es[..n]).crashed.Some?
    ensures FramePass(records0, es) == FramePass(records0, es[..n])
    decreases |es|
  {
    if n < |es| {
      var init := es[..|es| - 1];
      assert init[..n] == es[..n];
      FramePassCrashSticky(records0, init, n);
    } else {
      assert es[..n] == es;
    }
  }

  /** One more sensor of the loop. */
  lemma {:induction false} FramePassStep(records0: seq<CoreRecord>, es: seq<Emit>, j: nat)
    requires j < |es|
    ensures FramePass(records0, es[..j + 1]) == Visit(FramePass(records0, es[..j]), es[j])
  {
    assert es[..j + 1][..j] == es[..j];
  }

  /** `sensorsFrameCall`: per sensor, the main fetch, the supplementary windows and `i += 1`. */
  method SensorsFrameCall(records: seq<CoreRecord>, sensors: seq<Sensor>, api: (Sensor, Query) -> Fetch, pct: seq<real> --> int)
    returns (i: int, summaryData: seq<CoreRecord>, crashed: Option<PyError>)
    requires PctTotal(pct)
    ensures KpiPass(i, summaryData, crashed) == FramePass(records, Emits(sensors, api, pct))
  {
    ghost var es := Emits(sensors, api, pct);
    i := 5;
    summaryData := records;
    crashed := None;
    var j := 0;
    while j < |sensors|
      invariant 0 <= j <= |sensors|
      invariant FramePass(records, es[..j]) == KpiPass(i, summaryData, None)
      invariant crashed.None?
    {
      FramePassStep(records, es, j);
      i, summaryData, crashed := VisitSensor(i, summaryData, sensors[j], api, pct);
      if crashed.Some? {
        FramePassCrashSticky(records, es, j + 1);
        return;
      }
      j := j + 1;
    }
    assert es[..j] == es;
  }

  /** One sensor of `sensorsFrameCall`: the main fetch, then, unless it ended the
      script, `extraChokeUtilCalc` and `i += 1`. */
  method VisitSensor(i0: int, records: seq<CoreRecord>, sensor: Sensor, api: (Sensor, Query) -> Fetch, pct: seq<real> --> int)
    returns (i: int, summaryData: seq<CoreRecord>, crashed: Option<PyError>)
    requires PctTotal(pct)
    ensures KpiPass(i, summaryData, crashed) == Visit(KpiPass(i0, records, None), SensorEmit(sensor, api, pct))
  {
    var response := api(sensor, CliDates);
    var e := FetchEmit(sensor, response, pct, false);
    if e.crashed.Some? {
      return i0, records + e.records, e.crashed;
    }
    ghost var w := Extra(sensor, api, pct, 2);
    summaryData, crashed := ExtraChokeUtilCalc(records + e.records, sensor, api, pct);
    AppendAssoc(records, e.records, w.records);
    i := if crashed.None? then i0 + 1 else i0;
  }

  /** Regrouping a concatenation; kept as a lemma so the loop proofs above do
      not have to rediscover it. */
  lemma {:induction false} AppendAssoc(a: seq<CoreRecord>, b: seq<CoreRecord>, c: seq<CoreRecord>)
    ensures a + b + c == a + (b + c)
  {
  }

  // ---------------------------------------------------------------------------
  // Properties
  // ---------------------------------------------------------------------------

  /** The supplementary loop queries windows (-21, -7) and (-28, -14) only: two
      response functions that agree on those give the same outcome, whatever
      they answer for window 3 or any other range. */
  lemma {:induction false} ExtraQueries(s: Sensor, api1: (Sensor, Query) -> Fetch, api2: (Sensor, Query) -> Fetch,
                                        pct: seq<real> --> int)
    requires PctTotal(pct)
    requires api1(s, Frame(-21, -7)) == api2(s, Frame(-21, -7))
    requires api1(s, Frame(-28, -14)) == api2(s, Frame(-28, -14))
    ensures Extra(s, api1, pct, 2) == Extra(s, api2, pct, 2)
  {
    IntWindows(1);
    IntWindows(2);
    assert Extra(s, api1, pct, 1) == Extra(s, api2, pct, 1);
  }

  /** What one fetch can contribute: a non-200 status ends the script with
      `exit(1)`; a fetch that does not end it parsed the tags, found `kpi_seg`,
      and appended exactly one record for a Core segment (none otherwise),
      carrying that segment and the `kpi_cktmaxlimit` tag. */
  lemma {:induction false} FetchEmitRecords(s: Sensor, f: Fetch, pct: seq<real> --> int, chokeOnly: bool)
    requires PctTotal(pct)
    ensures f.status != 200 ==> FetchEmit(s, f, pct, chokeOnly) == Emit([], Some(Exit(1)))
    ensures |FetchEmit(s, f, pct, chokeOnly).records| <= 1
    ensures FetchEmit(s, f, pct, chokeOnly).crashed.None? ==>
      && f.status == 200
      && ExtractStrict(s.tags).Ok?
      && "kpi_seg" in ExtractStrict(s.tags).value
      && |FetchEmit(s, f, pct, chokeOnly).records| == (if Contains(ExtractStrict(s.tags).value["kpi_seg"], "Core") then 1 else 0)
    ensures forall r :: r in FetchEmit(s, f, pct, chokeOnly).records ==>
      && ExtractStrict(s.tags).Ok?
      && "kpi_seg" in ExtractStrict(s.tags).value
      && r.segment == ExtractStrict(s.tags).value["kpi_seg"]
      && Contains(r.segment, "Core")
      && r.limit == Get(ExtractStrict(s.tags).value, "kpi_cktmaxlimit")
  {
  }

  /** A sensor whose tags parse and whose `kpi_seg` contains "Core". */
  predicate CoreSensor(s: Sensor) {
    ExtractStrict(s.tags).Ok? && "kpi_seg" in ExtractStrict(s.tags).value &&
    Contains(ExtractStrict(s.tags).value["kpi_seg"], "Core")
  }

  /** A record carrying the sensor's segment and circuit limit. */
  predicate RecordOf(s: Sensor, r: CoreRecord) {
    && ExtractStrict(s.tags).Ok?
    && "kpi_seg" in ExtractStrict(s.tags).value
    && r.segment == ExtractStrict(s.tags).value["kpi_seg"]
    && Contains(r.segment, "Core")
    && r.limit == Get(ExtractStrict(s.tags).value, "kpi_cktmaxlimit")
  }

  /** The window fetches of the supplementary loop, in the terms of `RecordOf`. */
  lemma {:induction false} WindowEmitRecords(s: Sensor, api: (Sensor, Query) -> Fetch, pct: seq<real> --> int, k: int)
    requires PctTotal(pct)
    requires 1 <= k <= 2
    ensures forall r :: r in WindowEmit(s, api, pct, k).records ==> RecordOf(s, r)
    ensures WindowEmit(s, api, pct, k).crashed.None? ==>
      |WindowEmit(s, api, pct, k).records| == (if CoreSensor(s) then 1 else 0)
  {
    IntWindows(k);
    var fr := TimeWindowFrames(IdInt(k)).value;
    FetchEmitRecords(s, api(s, Frame(fr.0, fr.1)), pct, true);
  }

  /** Every record the first n windows append is one of the sensor's Core
      records, and without an exception there is one per window for a Core
      sensor. */
  lemma {:induction false} ExtraRecords(s: Sensor, api: (Sensor, Query) -> Fetch, pct: seq<real> --> int, n: nat)
    requires PctTotal(pct)
    requires n <= 2
    ensures forall r :: r in Extra(s, api, pct, n).records ==> RecordOf(s, r)
    ensures Extra(s, api, pct, n).crashed.None? ==>
      |Extra(s, api, pct, n).records| == n * (if CoreSensor(s) then 1 else 0)
    decreases n
  {
    if n > 0 {
      ExtraRecords(s, api, pct, n - 1);
      WindowEmitRecords(s, api, pct, n);
    }
  }

  /** A sensor whose fetches all succeed appends three records when its
      segment is Core (the main pass and windows 1 and 2) and none otherwise,
      each carrying its segment and circuit limit; a non-200 main response
      ends the script with `exit(1)` before anything is appended. */
  lemma {:induction false} SensorEmitRecords(s: Sensor, api: (Sensor, Query) -> Fetch, pct: seq<real> --> int)
    requires PctTotal(pct)
    ensures api(s, CliDates).status != 200 ==> SensorEmit(s, api, pct) == Emit([], Some(Exit(1)))
    ensures forall r :: r in SensorEmit(s, api, pct).records ==> RecordOf(s, r)
    ensures SensorEmit(s, api, pct).crashed.None? ==>
      |SensorEmit(s, api, pct).records| == (if CoreSensor(s) then 3 else 0)
  {
    FetchEmitRecords(s, api(s, CliDates), pct, false);
    ExtraRecords(s, api, pct, 2);
  }

  /** The number of Core sensors in the list. */
  function CoreCount(sensors: seq<Sensor>): nat
    decreases |sensors|
  {
    if sensors == [] then 0
    else CoreCount(sensors[..|sensors| - 1]) + (if CoreSensor(sensors[|sensors| - 1]) then 1 else 0)
  }

  /** The script gets through `sensorsFrameCall` exactly when no sensor's
      fetches end it. */
  lemma {:induction false} FramePassOutcome(records0: seq<CoreRecord>, es: seq<Emit>)
    ensures FramePass(records0, es).crashed.None? <==> forall k :: 0 <= k < |es| ==> es[k].crashed.None?
    decreases |es|
  {
    if es != [] {
      var init := es[..|es| - 1];
      FramePassOutcome(records0, init);
      assert forall k :: 0 <= k < |init| ==> init[k] == es[k];
    }
  }

  /** The number of records the emissions append. */
  function EmitTotal(es: seq<Emit>): nat
    decreases |es|
  {
    if es == [] then 0 else EmitTotal(es[..|es| - 1]) + |es[|es| - 1].records|
  }

  /** After a full pass, `i` has advanced once per sensor, the records collected
      before are still in front, and every appended record comes from one of the
      emissions. */
  lemma {:induction false} FramePassShape(records0: seq<CoreRecord>, es: seq<Emit>)
    requires FramePass(records0, es).crashed.None?
    ensures FramePass(records0, es).i == 5 + |es|
    ensures |FramePass(records0, es).records| == |records0| + EmitTotal(es)
    ensures FramePass(records0, es).records[..|records0|] == records0
    ensures forall k :: |records0| <= k < |FramePass(records0, es).records| ==>
      exists j :: 0 <= j < |es| && FramePass(records0, es).records[k] in es[j].records
    decreases |es|
  {
    if es != [] {
      var init := es[..|es| - 1];
      var e := es[|es| - 1];
      var prev := FramePass(records0, init);
      assert prev.crashed.None?;
      FramePassShape(records0, init);
      var recs := prev.records + e.records;
      assert recs[..|records0|] == prev.records[..|records0|];
      forall k | |records0| <= k < |recs|
        ensures exists j :: 0 <= j < |es| && recs[k] in es[j].records
      {
        if k < |prev.records| {
          assert recs[k] == prev.records[k];
          var j :| 0 <= j < |init| && prev.records[k] in init[j].records;
          assert init[j] == es[j];
        } else {
          assert recs[k] == e.records[k - |prev.records|];
          assert recs[k] in es[|es| - 1].records;
        }
      }
    }
  }

  /** Without an exception, the sensors append three records per Core sensor. */
  lemma {:induction false} EmitsTotal(sensors: seq<Sensor>, api: (Sensor, Query) -> Fetch, pct: seq<real> --> int)
    requires PctTotal(pct)
    requires forall k :: 0 <= k < |sensors| ==> SensorEmit(sensors[k], api, pct).crashed.None?
    ensures EmitTotal(Emits(sensors, api, pct)) == 3 * CoreCount(sensors)
  {
    var es := Emits(sensors, api, pct);
    forall k | 0 <= k < |sensors|
      ensures |es[k].records| == if CoreSensor(sensors[k]) then 3 else 0
    {
      SensorEmitRecords(sensors[k], api, pct);
    }
    CountedEmits(es, sensors);
  }

  /** Emissions of three records per Core sensor and none otherwise total
      three per Core sensor. */
  lemma {:induction false} CountedEmits(es: seq<Emit>, sensors: seq<Sensor>)
    requires |es| == |sensors|
    requires forall k :: 0 <= k < |sensors| ==> |es[k].records| == if CoreSensor(sensors[k]) then 3 else 0
    ensures EmitTotal(es) == 3 * CoreCount(sensors)
    decreases |sensors|
  {
    if sensors != [] {
      var init, es0 := sensors[..|sensors| - 1], es[..|es| - 1];
      forall k | 0 <= k < |init|
        ensures |es0[k].records| == if CoreSensor(init[k]) then 3 else 0
      {
        assert init[k] == sensors[k] && es0[k] == es[k];
      }
      CountedEmits(es0, init);
    }
  }

  /** After a full pass, `i` is 5 plus the number of sensors, the records
      collected before are still in front, and three records were appended per
      Core sensor, each carrying the segment and limit of one of the sensors. */
  lemma {:induction false} FramePassCounts(records0: seq<CoreRecord>, sensors: seq<Sensor>,
                                           api: (Sensor, Query) -> Fetch, pct: seq<real> --> int)
    requires PctTotal(pct)
    requires FramePass(records0, Emits(sensors, api, pct)).crashed.None?
    ensures FramePass(records0, Emits(sensors, api, pct)).i == 5 + |sensors|
    ensures |FramePass(records0, Emits(sensors, api, pct)).records| == |records0| + 3 * CoreCount(sensors)
    ensures FramePass(records0, Emits(sensors, api, pct)).records[..|records0|] == records0
    ensures forall k :: |records0| <= k < |FramePass(records0, Emits(sensors, api, pct)).records| ==>
      exists j :: 0 <= j < |sensors| && RecordOf(sensors[j], FramePass(records0, Emits(sensors, api, pct)).records[k])
  {
    var es := Emits(sensors, api, pct);
    var recs := FramePass(records0, es).records;
    FramePassOutcome(records0, es);
    FramePassShape(records0, es);
    EmitsTotal(sensors, api, pct);
    forall k | |records0| <= k < |recs|
      ensures exists j :: 0 <= j < |sensors| && RecordOf(sensors[j], recs[k])
    {
      var j :| 0 <= j < |es| && recs[k] in es[j].records;
      SensorEmitRecords(sensors[j], api, pct);
    }
  }

  // ---------------------------------------------------------------------------
  // The script
  // ---------------------------------------------------------------------------

  /** kpi_report_bandwidth.py from the sensor listing to the end of
      `sensorsFrameCall`, with `summary_data` starting empty. Iterating the
      None that an unmatched `--sensorid` yields raises TypeError. */
  method RunKpi(listing: seq<Sensor>, sensorid: Option<string>, api: (Sensor, Query) -> Fetch, pct: seq<real> --> int)
    returns (i: int, summaryData: seq<CoreRecord>, crashed: Option<PyError>)
    requires PctTotal(pct)
    ensures Visited(SensorIds(listing, sensorid)).Err? ==>
      summaryData == [] && crashed == Some(Visited(SensorIds(listing, sensorid)).error)
    ensures Visited(SensorIds(listing, sensorid)).Ok? ==>
      KpiPass(i, summaryData, crashed) == FramePass([], Emits(Visited(SensorIds(listing, sensorid)).value, api, pct))
  {
    var sensorsMainCall := GetKpiSensorIds(listing, sensorid);
    var sensors := Visited(sensorsMainCall);
    if sensors.Err? {
      return 5, [], Some(sensors.error);
    }
    i, summaryData, crashed := SensorsFrameCall([], sensors.value, api, pct);
  }
}

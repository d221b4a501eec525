/** What the scripts derive for one sensor: the sensor list filter, the row
    cells (location, device, max traffic, choke point, limits, utilisations)
    and the Core summary record. */
module Rows {
  import opened Py
  import opened PyStr
  import opened Tags
  import opened Traffic
  import opened Segments

  /** One entry of the sensor table: `objid`, `device` and the tag string. */
  datatype Sensor = Sensor(objid: int, device: string, tags: string)

  /** A `historicdata.json` response: HTTP status and `data['histdata']`. */
  datatype Fetch = Fetch(status: int, histdata: seq<Block>)

  /** `ceil(numpy.percentile(xs, p))` for the configured percentile: a
      function defined on every non-empty series. */
  ghost predicate PctTotal(pct: seq<real> --> int) {
    forall xs: seq<real> :: |xs| > 0 ==> pct.requires(xs)
  }

  // ---------------------------------------------------------------------------
  // Sensor-id filter of get_kpi_sensor_ids
  // ---------------------------------------------------------------------------

  /** Index of the first sensor with the given objid. */
  function FirstMatch(sensors: seq<Sensor>, id: int): (k: Option<nat>)
    ensures k.Some? ==> k.value < |sensors| && sensors[k.value].objid == id &&
                        forall j :: 0 <= j < k.value ==> sensors[j].objid != id
    ensures k.None? <==> forall j :: 0 <= j < |sensors| ==> sensors[j].objid != id
  {
    if sensors == [] then None
    else if sensors[0].objid == id then Some(0)
    else match FirstMatch(sensors[1..], id)
      case None => None
      case Some(j) => Some(j + 1)
  }

  /** `args.sensorid` is given and non-empty. */
  predicate Filtering(sensorid: Option<string>) {
    sensorid.Some? && sensorid.value != ""
  }

  /** What `get_kpi_sensor_ids` returns for a 200 response: all sensors when no
      sensor id is given; otherwise the first sensor whose objid equals
      `int(args.sensorid)`, as a singleton, or None when none does. `int()`
      runs once per compared sensor, so a non-integer id raises ValueError
      only when the list is not empty. */
  function SensorIds(sensors: seq<Sensor>, sensorid: Option<string>): Result<Option<seq<Sensor>>> {
    if !Filtering(sensorid) then Ok(Some(sensors))
    else if sensors == [] then Ok(None)
    else match ParseInt(sensorid.value)
      case None => Err(ValueError)
      case Some(id) =>
        match FirstMatch(sensors, id)
        case None => Ok(None)
        case Some(k) => Ok(Some([sensors[k]]))
  }

  /** The sensor-id branch of `get_kpi_sensor_ids` (old.py, main.py and
      kpi_report_bandwidth.py share it). */
  method GetKpiSensorIds(sensors: seq<Sensor>, sensorid: Option<string>) returns (r: Result<Option<seq<Sensor>>>)
    ensures r == SensorIds(sensors, sensorid)
  {
    if !Filtering(sensorid) {
      return Ok(Some(sensors));
    }
    var i := 0;
    while i < |sensors|
      invariant 0 <= i <= |sensors|
      invariant i > 0 ==> ParseInt(sensorid.value).Some?
      invariant forall j :: 0 <= j < i ==> sensors[j].objid != ParseInt(sensorid.value).value
    {
      var id := ParseInt(sensorid.value);
      if id.None? {
        return Err(ValueError);
      }
      if sensors[i].objid == id.value {
        return Ok(Some([sensors[i]]));
      }
      i := i + 1;
    }
    return Ok(None);
  }

  /** With a sensor id, the result is either the singleton of the first match
      or None exactly when no sensor matches. */
  lemma {:induction false} SensorIdsFilter(sensors: seq<Sensor>, sensorid: Option<string>)
    requires Filtering(sensorid)
    requires sensors != [] ==> ParseInt(sensorid.value).Some?
    ensures SensorIds(sensors, sensorid).Ok?
    ensures SensorIds(sensors, sensorid).value.None? <==>
              forall j :: 0 <= j < |sensors| ==> sensors[j].objid != ParseInt(sensorid.value).value
    ensures SensorIds(sensors, sensorid).value.Some? ==>
              exists k :: 0 <= k < |sensors| && SensorIds(sensors, sensorid).value.value == [sensors[k]] &&
                sensors[k].objid == ParseInt(sensorid.value).value &&
                forall j :: 0 <= j < k ==> sensors[j].objid != ParseInt(sensorid.value).value
  {
    if sensors != [] {
      var k := FirstMatch(sensors, ParseInt(sensorid.value).value);
      if k.Some? {
        assert SensorIds(sensors, sensorid).value.value == [sensors[k.value]];
      }
    }
  }

  /** The sensors the loop visits: a filter that matches nothing leaves `None`,
      and iterating over it raises TypeError. */
  function Visited(ids: Result<Option<seq<Sensor>>>): (r: Result<seq<Sensor>>)
    ensures ids.Ok? && ids.value.Some? ==> r == Ok(ids.value.value)
    ensures ids.Ok? && ids.value.None? ==> r == Err(TypeError)
    ensures ids.Err? ==> r == Err(ids.error)
  {
    match ids
    case Err(e) => Err(e)
    case Ok(None) => Err(TypeError)
    case Ok(Some(ss)) => Ok(ss)
  }

  // ---------------------------------------------------------------------------
  // Cells
  // ---------------------------------------------------------------------------

  /** `properties.get(key)` is truthy: present and not `''`. */
  predicate Truthy(p: Props, key: string) {
    key in p && p[key] != ""
  }

  /** `properties.get(key)`. */
  function Get(p: Props, key: string): Option<string> {
    if key in p then Some(p[key]) else None
  }

  /** The Location cell: the site id with each `#` turned into a space, or
      'NA' when there is none. */
  function LocationCell(p: Props): (v: Value)
    ensures v.VStr?
    ensures Truthy(p, "kpi_siteid") ==>
              |v.s| == |p["kpi_siteid"]| &&
              forall i :: 0 <= i < |v.s| ==> v.s[i] == (if p["kpi_siteid"][i] == '#' then ' ' else p["kpi_siteid"][i])
    ensures !Truthy(p, "kpi_siteid") ==> v == VStr("NA")
  {
    if Truthy(p, "kpi_siteid") then VStr(ReplaceHash(p["kpi_siteid"])) else VStr("NA")
  }

  /** A cell that copies a tag's text, or 'NA'. */
  function TagCell(p: Props, key: string): (v: Value)
    ensures Truthy(p, key) ==> v == VStr(p[key])
    ensures !Truthy(p, key) ==> v == VStr("NA")
  {
    if Truthy(p, key) then VStr(p[key]) else VStr("NA")
  }

  /** A cell holding `int(properties[key])` (main.py), or 'NA'; a tag that is
      not an integer raises ValueError. */
  function IntTagCell(p: Props, key: string): (v: Result<Value>)
    ensures v.Err? <==> Truthy(p, key) && ParseInt(p[key]).None?
    ensures v.Err? ==> v.error == ValueError
    ensures v.Ok? && Truthy(p, key) ==> v.value == VInt(ParseInt(p[key]).value)
    ensures !Truthy(p, key) ==> v == Ok(VStr("NA"))
  {
    if !Truthy(p, key) then Ok(VStr("NA"))
    else match ParseInt(p[key])
      case None => Err(ValueError)
      case Some(n) => Ok(VInt(n))
  }

  /** The series the Max Traffic cell is computed from: outbound when
      `kpi_trafficdirection` is 'up', inbound otherwise. */
  function Series(p: Props, tin: seq<real>, tout: seq<real>): seq<real> {
    if "kpi_trafficdirection" in p && p["kpi_trafficdirection"] == "up" then tout else tin
  }

  /** The Max Traffic cell and `max_traffic`, which stays 0 for an empty series. */
  function MaxCell(series: seq<real>, pct: seq<real> --> int): (r: (Value, int))
    requires PctTotal(pct)
    ensures series == [] ==> r == (VStr("NA"), 0)
    ensures series != [] ==> r == (VInt(pct(series)), pct(series))
  {
    if series == [] then (VStr("NA"), 0) else (VInt(pct(series)), pct(series))
  }

  /** A utilisation cell `max_traffic / int(properties[key])`, or 'NA' when the
      tag is absent. */
  function UtilCell(mx: int, p: Props, key: string): (v: Result<Value>)
    ensures v == Ok(VStr("NA")) <==> !Truthy(p, key)
    ensures v.Err? <==> Truthy(p, key) && (ParseInt(p[key]).None? || ParseInt(p[key]) == Some(0))
    ensures v.Err? ==> (v.error == ValueError <==> ParseInt(p[key]).None?) &&
                       (v.error == ValueError || v.error == ZeroDivisionError)
    ensures v.Ok? && Truthy(p, key) ==>
              v.value.VReal? && v.value.r * ParseInt(p[key]).value as real == mx as real
  {
    if !Truthy(p, key) then Ok(VStr("NA"))
    else match ParseInt(p[key])
      case None => Err(ValueError)
      case Some(n) =>
        match Div(mx as real, n as real)
        case Err(e) => Err(e)
        case Ok(q) => Ok(VReal(q))
  }

  /** `"Core" in properties.get('kpi_seg')`: TypeError when the tag is absent. */
  function IsCore(p: Props): (r: Result<bool>)
    ensures r.Err? <==> "kpi_seg" !in p
    ensures r.Err? ==> r.error == TypeError
    ensures r.Ok? ==> (r.value <==> Contains(p["kpi_seg"], "Core"))
  {
    if "kpi_seg" !in p then Err(TypeError) else Ok(Contains(p["kpi_seg"], "Core"))
  }

  /** The summary record a Core sensor appends. */
  function CoreRecordOf(p: Props, mx: int): (r: Option<CoreRecord>)
    requires "kpi_seg" in p
    ensures r.Some? <==> Contains(p["kpi_seg"], "Core")
    ensures r.Some? ==> r.value == CoreRecord(p["kpi_seg"], mx, Get(p, "kpi_cktmaxlimit"))
  {
    if Contains(p["kpi_seg"], "Core") then Some(CoreRecord(p["kpi_seg"], mx, Get(p, "kpi_cktmaxlimit"))) else None
  }

  // ---------------------------------------------------------------------------
  // old.py row
  // ---------------------------------------------------------------------------

  /** A row and the summary record it appends (if any). */
  datatype RowOut = RowOut(cells: seq<Value>, record: Option<CoreRecord>)

  /** The cells and record old.py derives from parsed tags and normalised series. */
  function OldCells(p: Props, s: Sensor, debug: bool, tin: seq<real>, tout: seq<real>, pct: seq<real> --> int): Result<RowOut>
    requires PctTotal(pct)
  {
    var (maxCell, mx) := MaxCell(Series(p, tin, tout), pct);
    match IsCore(p)
    case Err(e) => Err(e)
    case Ok(_) =>
      match UtilCell(mx, p, "kpi_chokelimit")
      case Err(e) => Err(e)
      case Ok(chokeUtil) =>
        match UtilCell(mx, p, "kpi_cktmaxlimit")
        case Err(e) => Err(e)
        case Ok(cktUtil) =>
          Ok(RowOut([LocationCell(p)] +
                    (if debug then [VStr(DeviceName(s.device)), VInt(s.objid)] else []) +
                    [maxCell, TagCell(p, "kpi_choke"), TagCell(p, "kpi_chokelimit"), TagCell(p, "kpi_cktmaxlimit"),
                     chokeUtil, cktUtil],
                    CoreRecordOf(p, mx)))
  }

  /** One fetched sensor of old.py's loop: parse the tags, normalise both
      channels, derive the cells. */
  function OldRow(s: Sensor, histdata: seq<Block>, debug: bool, pct: seq<real> --> int): Result<RowOut>
    requires PctTotal(pct)
  {
    match ExtractStrict(s.tags)
    case Err(e) => Err(e)
    case Ok(p) =>
      match SkipScaled(histdata, TrafficIn)
      case Err(e) => Err(e)
      case Ok(tin) =>
        match SkipScaled(histdata, TrafficOut)
        case Err(e) => Err(e)
        case Ok(tout) => OldCells(p, s, debug, tin, tout, pct)
  }

  /** Offset of the Max Traffic cell: after Location, and the device name and
      id in debug mode. */
  function MaxCol(debug: bool): nat { if debug then 3 else 1 }

  /** The row has 7 cells (9 with the debug columns) in header order:
      location, [device name, objid,] max traffic, choke point, choke limit,
      circuit limit, choke utilisation, circuit utilisation; the eighth
      header, Action, gets no cell. */
  lemma {:induction false} OldCellsLayout(p: Props, s: Sensor, debug: bool, tin: seq<real>, tout: seq<real>, pct: seq<real> --> int)
    requires PctTotal(pct)
    requires OldCells(p, s, debug, tin, tout, pct).Ok?
    ensures |OldCells(p, s, debug, tin, tout, pct).value.cells| == MaxCol(debug) + 6
    ensures OldCells(p, s, debug, tin, tout, pct).value.cells[0] == LocationCell(p)
    ensures debug ==> OldCells(p, s, debug, tin, tout, pct).value.cells[1] == VStr(DeviceName(s.device))
    ensures debug ==> OldCells(p, s, debug, tin, tout, pct).value.cells[2] == VInt(s.objid)
    ensures OldCells(p, s, debug, tin, tout, pct).value.cells[MaxCol(debug)] == MaxCell(Series(p, tin, tout), pct).0
    ensures OldCells(p, s, debug, tin, tout, pct).value.cells[MaxCol(debug) + 1] == TagCell(p, "kpi_choke")
    ensures OldCells(p, s, debug, tin, tout, pct).value.cells[MaxCol(debug) + 2] == TagCell(p, "kpi_chokelimit")
    ensures OldCells(p, s, debug, tin, tout, pct).value.cells[MaxCol(debug) + 3] == TagCell(p, "kpi_cktmaxlimit")
    ensures OldCells(p, s, debug, tin, tout, pct).value.cells[MaxCol(debug) + 4] ==
              UtilCell(MaxCell(Series(p, tin, tout), pct).1, p, "kpi_chokelimit").value
    ensures OldCells(p, s, debug, tin, tout, pct).value.cells[MaxCol(debug) + 5] ==
              UtilCell(MaxCell(Series(p, tin, tout), pct).1, p, "kpi_cktmaxlimit").value
  {
    var mx := MaxCell(Series(p, tin, tout), pct);
    var extra: seq<Value> := if debug then [VStr(DeviceName(s.device)), VInt(s.objid)] else [];
    var tail := [mx.0, TagCell(p, "kpi_choke"), TagCell(p, "kpi_chokelimit"), TagCell(p, "kpi_cktmaxlimit"),
                 UtilCell(mx.1, p, "kpi_chokelimit").value, UtilCell(mx.1, p, "kpi_cktmaxlimit").value];
    var cells := OldCells(p, s, debug, tin, tout, pct).value.cells;
    assert cells == [LocationCell(p)] + extra + tail;
    assert |extra| == MaxCol(debug) - 1;
    assert forall i :: 0 <= i < 6 ==> cells[MaxCol(debug) + i] == tail[i];
  }

  /** old.py's row fails exactly when `kpi_seg` is absent or a present choke or
      circuit limit is not a non-zero integer; otherwise it appends a record
      exactly for a Core segment. */
  lemma {:induction false} OldCellsOutcome(p: Props, s: Sensor, debug: bool, tin: seq<real>, tout: seq<real>, pct: seq<real> --> int)
    requires PctTotal(pct)
    ensures OldCells(p, s, debug, tin, tout, pct).Err? <==>
              || "kpi_seg" !in p
              || (Truthy(p, "kpi_chokelimit") && (ParseInt(p["kpi_chokelimit"]).None? || ParseInt(p["kpi_chokelimit"]) == Some(0)))
              || (Truthy(p, "kpi_cktmaxlimit") && (ParseInt(p["kpi_cktmaxlimit"]).None? || ParseInt(p["kpi_cktmaxlimit"]) == Some(0)))
    ensures "kpi_seg" !in p ==> OldCells(p, s, debug, tin, tout, pct) == Err(TypeError)
    ensures OldCells(p, s, debug, tin, tout, pct).Ok? ==>
              (OldCells(p, s, debug, tin, tout, pct).value.record.Some? <==> Contains(p["kpi_seg"], "Core"))
    ensures OldCells(p, s, debug, tin, tout, pct).Ok? && Contains(p["kpi_seg"], "Core") ==>
              OldCells(p, s, debug, tin, tout, pct).value.record ==
                Some(CoreRecord(p["kpi_seg"], MaxCell(Series(p, tin, tout), pct).1, Get(p, "kpi_cktmaxlimit")))
  {
  }

  /** With no samples in the selected series the Max Traffic cell is 'NA' yet
      `max_traffic` is 0, so a present non-zero choke or circuit limit gives a
      utilisation of 0 rather than 'NA', and a Core record of bandwidth 0. */
  lemma {:induction false} EmptySeriesUtilisation(p: Props, key: string, series: seq<real>, pct: seq<real> --> int)
    requires PctTotal(pct)
    requires series == []
    requires Truthy(p, key) && ParseInt(p[key]).Some? && ParseInt(p[key]).value != 0
    ensures MaxCell(series, pct).0 == VStr("NA")
    ensures UtilCell(MaxCell(series, pct).1, p, key) == Ok(VReal(0.0))
  {
  }

  /** The strictly parsed tags never say 'up', so old.py always takes the
      inbound series. */
  lemma {:induction false} OldRowInbound(tags: string, tin: seq<real>, tout: seq<real>)
    requires ExtractStrict(tags).Ok?
    ensures Series(ExtractStrict(tags).value, tin, tout) == tin
  {
    StrictNeverUp(tags);
  }

  // ---------------------------------------------------------------------------
  // main.py row
  // ---------------------------------------------------------------------------

  /** A main.py row: its cells, whether the sensor is edge-tagged, and its
      summary record (if any). */
  datatype MainRowOut = MainRowOut(cells: seq<Value>, edge: bool, record: Option<CoreRecord>)

  /** The cells main.py derives: location, max traffic, choke point,
      `int(choke limit)`, `int(circuit limit)`, circuit utilisation, choke
      utilisation. */
  function MainCells(p: Props, tin: seq<real>, tout: seq<real>, pct: seq<real> --> int): Result<MainRowOut>
    requires PctTotal(pct)
  {
    var (maxCell, mx) := MaxCell(Series(p, tin, tout), pct);
    match IsCore(p)
    case Err(e) => Err(e)
    case Ok(_) =>
      match IntTagCell(p, "kpi_chokelimit")
      case Err(e) => Err(e)
      case Ok(chokeLimit) =>
        match IntTagCell(p, "kpi_cktmaxlimit")
        case Err(e) => Err(e)
        case Ok(cktLimit) =>
          match UtilCell(mx, p, "kpi_cktmaxlimit")
          case Err(e) => Err(e)
          case Ok(cktUtil) =>
            match UtilCell(mx, p, "kpi_chokelimit")
            case Err(e) => Err(e)
            case Ok(chokeUtil) =>
              Ok(MainRowOut([LocationCell(p), maxCell, TagCell(p, "kpi_choke"), chokeLimit, cktLimit, cktUtil, chokeUtil],
                            Truthy(p, "edge"), CoreRecordOf(p, mx)))
  }

  /** One fetched sensor of main.py's loop. Tolerant parsing and padded
      normalisation never raise. */
  function MainRow(s: Sensor, histdata: seq<Block>, pct: seq<real> --> int): Result<MainRowOut>
    requires PctTotal(pct)
  {
    MainCells(ExtractTolerant(s.tags), Padded(histdata, TrafficIn), Padded(histdata, TrafficOut), pct)
  }

  /** main.py's row has seven cells in header order; limits are written as
      integers; the edge flag is the truthiness of the `edge` property. */
  lemma {:induction false} MainCellsLayout(p: Props, tin: seq<real>, tout: seq<real>, pct: seq<real> --> int)
    requires PctTotal(pct)
    requires MainCells(p, tin, tout, pct).Ok?
    ensures |MainCells(p, tin, tout, pct).value.cells| == 7
    ensures MainCells(p, tin, tout, pct).value.cells[0] == LocationCell(p)
    ensures MainCells(p, tin, tout, pct).value.cells[1] == MaxCell(Series(p, tin, tout), pct).0
    ensures MainCells(p, tin, tout, pct).value.cells[2] == TagCell(p, "kpi_choke")
    ensures MainCells(p, tin, tout, pct).value.cells[3] == IntTagCell(p, "kpi_chokelimit").value
    ensures MainCells(p, tin, tout, pct).value.cells[4] == IntTagCell(p, "kpi_cktmaxlimit").value
    ensures MainCells(p, tin, tout, pct).value.cells[5] ==
              UtilCell(MaxCell(Series(p, tin, tout), pct).1, p, "kpi_cktmaxlimit").value
    ensures MainCells(p, tin, tout, pct).value.cells[6] ==
              UtilCell(MaxCell(Series(p, tin, tout), pct).1, p, "kpi_chokelimit").value
    ensures MainCells(p, tin, tout, pct).value.edge <==> Truthy(p, "edge")
  {
  }

  /** main.py's row fails exactly when `kpi_seg` is absent, a present limit is
      not an integer, or a present limit is zero. */
  lemma {:induction false} MainCellsOutcome(p: Props, tin: seq<real>, tout: seq<real>, pct: seq<real> --> int)
    requires PctTotal(pct)
    ensures MainCells(p, tin, tout, pct).Err? <==>
              || "kpi_seg" !in p
              || (Truthy(p, "kpi_chokelimit") && (ParseInt(p["kpi_chokelimit"]).None? || ParseInt(p["kpi_chokelimit"]) == Some(0)))
              || (Truthy(p, "kpi_cktmaxlimit") && (ParseInt(p["kpi_cktmaxlimit"]).None? || ParseInt(p["kpi_cktmaxlimit"]) == Some(0)))
    ensures "kpi_seg" !in p ==> MainCells(p, tin, tout, pct) == Err(TypeError)
    ensures MainCells(p, tin, tout, pct).Ok? ==>
              (MainCells(p, tin, tout, pct).value.record.Some? <==> Contains(p["kpi_seg"], "Core"))
  {
  }

  /** The padded series is empty only for a sensor without samples, so main.py
      reports 'NA' exactly then. */
  lemma {:induction false} MainMaxNA(s: Sensor, histdata: seq<Block>, pct: seq<real> --> int)
    requires PctTotal(pct)
    ensures (MaxCell(Series(ExtractTolerant(s.tags), Padded(histdata, TrafficIn), Padded(histdata, TrafficOut)), pct).0
               == VStr("NA")) <==> histdata == []
  {
    TolerantNeverUp(s.tags);
    PaddedLength(histdata, TrafficIn);
  }
}

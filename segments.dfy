/** Core-segment summary: the `{segment, bandwidth, limit}` records collected
    for Core sensors, grouped by segment, summed, and divided into
    utilisation ratios. */
module Segments {
  import opened Py
  import opened PyStr

  /** One `summary_data` entry: `properties.get('kpi_seg')`, the sensor's
      `max_traffic` and `properties.get('kpi_cktmaxlimit')` (None when absent). */
  datatype CoreRecord = CoreRecord(segment: string, bandwidth: int, limit: Option<string>)

  /** The records a sensor appends: its record, if it has one. */
  function RecordList(r: Option<CoreRecord>): seq<CoreRecord> {
    if r.Some? then [r.value] else []
  }

  /** `int(data['limit'])`: `int(None)` raises TypeError, a non-integer string
      ValueError. */
  function LimitValue(r: CoreRecord): (v: Result<int>)
    ensures v.Err? <==> r.limit.None? || ParseInt(r.limit.value).None?
    ensures v.Err? ==> (v.error == TypeError <==> r.limit.None?) && (v.error == TypeError || v.error == ValueError)
    ensures v.Ok? ==> Some(v.value) == ParseInt(r.limit.value)
  {
    match r.limit
    case None => Err(TypeError)
    case Some(s) =>
      match ParseInt(s)
      case None => Err(ValueError)
      case Some(n) => Ok(n)
  }

  /** The two summed columns of a record. */
  datatype Column = Bandwidth | Limit

  /** The amount a record adds to a column (a limit that does not parse adds 0;
      the sums below only use it where every limit parses). */
  function Amount(r: CoreRecord, c: Column): int {
    match c
    case Bandwidth => r.bandwidth
    case Limit => if LimitValue(r).Ok? then LimitValue(r).value else 0
  }

  /** Reference sum of a column over a list of records. */
  function Total(rs: seq<CoreRecord>, c: Column): int
    decreases |rs|
  {
    if rs == [] then 0 else Total(rs[..|rs| - 1], c) + Amount(rs[|rs| - 1], c)
  }

  /** The records of one segment, in order. */
  function Matching(rs: seq<CoreRecord>, seg: string): (m: seq<CoreRecord>)
    ensures forall r :: r in m ==> r in rs && r.segment == seg
    decreases |rs|
  {
    if rs == [] then []
    else Matching(rs[..|rs| - 1], seg) + (if rs[|rs| - 1].segment == seg then [rs[|rs| - 1]] else [])
  }

  // ---------------------------------------------------------------------------
  // The inner loop: one segment's sums
  // ---------------------------------------------------------------------------

  /** Specification of the inner loop `for data in summary_data: if
      data['segment'] == segment: ...`, both accumulators starting at `seed`. */
  function GroupSum(rs: seq<CoreRecord>, seg: string, seed: int): Result<(int, int)>
    decreases |rs|
  {
    if rs == [] then Ok((seed, seed))
    else
      var prev := GroupSum(rs[..|rs| - 1], seg, seed);
      var r := rs[|rs| - 1];
      if prev.Err? || r.segment != seg then prev
      else match LimitValue(r)
        case Err(e) => Err(e)
        case Ok(n) => Ok((prev.value.0 + r.bandwidth, prev.value.1 + n))
  }

  lemma {:induction false} GroupSumErrSticky(rs: seq<CoreRecord>, seg: string, seed: int, n: nat)
    requires n <= |rs|
    requires GroupSum(rs[..n], seg, seed).Err?
    ensures GroupSum(rs, seg, seed) == GroupSum(rs[..n], seg, seed)
    decreases |rs|
  {
    if n < |rs| {
      var init := rs[..|rs| - 1];
      assert init[..n] == rs[..n];
      GroupSumErrSticky(init, seg, seed, n);
    } else {
      assert rs[..n] == rs;
    }
  }

  /** The inner accumulation loop of the aggregation. */
  method SumSegment(rs: seq<CoreRecord>, seg: string, seed: int) returns (r: Result<(int, int)>)
    ensures r == GroupSum(rs, seg, seed)
  {
    var segmentBandwidth := seed;
    var segmentLimit := seed;
    var i := 0;
    while i < |rs|
      invariant 0 <= i <= |rs|
      invariant GroupSum(rs[..i], seg, seed) == Ok((segmentBandwidth, segmentLimit))
    {
      assert rs[..i + 1][..i] == rs[..i];
      if rs[i].segment == seg {
        var lim := LimitValue(rs[i]);
        if lim.Err? {
          GroupSumErrSticky(rs, seg, seed, i + 1);
          return Err(lim.error);
        }
        segmentBandwidth := segmentBandwidth + rs[i].bandwidth;
        segmentLimit := segmentLimit + lim.value;
      }
      i := i + 1;
    }
    assert rs[..i] == rs;
    r := Ok((segmentBandwidth, segmentLimit));
  }

  /** The inner loop succeeds exactly when every record of the segment has an
      integer limit. */
  lemma {:induction false} GroupSumOk(rs: seq<CoreRecord>, seg: string, seed: int)
    ensures GroupSum(rs, seg, seed).Ok? <==>
              forall i :: 0 <= i < |rs| && rs[i].segment == seg ==> LimitValue(rs[i]).Ok?
    decreases |rs|
  {
    if rs != [] {
      var init := rs[..|rs| - 1];
      GroupSumOk(init, seg, seed);
      assert forall i :: 0 <= i < |init| ==> init[i] == rs[i];
    }
  }

  /** It raises only what `int(data['limit'])` raises. */
  lemma {:induction false} GroupSumErr(rs: seq<CoreRecord>, seg: string, seed: int)
    ensures GroupSum(rs, seg, seed).Err? ==>
              GroupSum(rs, seg, seed).error == TypeError || GroupSum(rs, seg, seed).error == ValueError
    decreases |rs|
  {
    if rs != [] {
      GroupSumErr(rs[..|rs| - 1], seg, seed);
    }
  }

  /** The component of a pair of sums that holds a column. */
  function Pick(p: (int, int), c: Column): int {
    match c case Bandwidth => p.0 case Limit => p.1
  }

  /** On success each accumulator is the seed plus the column's sum over the
      segment's records. */
  lemma {:induction false} GroupSumSums(rs: seq<CoreRecord>, seg: string, seed: int, c: Column)
    requires GroupSum(rs, seg, seed).Ok?
    ensures Pick(GroupSum(rs, seg, seed).value, c) == seed + Total(Matching(rs, seg), c)
    decreases |rs|
  {
    if rs != [] {
      var init := rs[..|rs| - 1];
      GroupSumSums(init, seg, seed, c);
      var m := Matching(rs, seg);
      var r := rs[|rs| - 1];
      if r.segment == seg {
        assert m == Matching(init, seg) + [r];
        assert m[..|m| - 1] == Matching(init, seg) && m[|m| - 1] == r;
        assert LimitValue(r).Ok?;
      } else {
        assert m == Matching(init, seg);
      }
    }
  }

  // ---------------------------------------------------------------------------
  // The outer loop: one row per segment, running totals
  // ---------------------------------------------------------------------------

  /** A segment row: name, bandwidth, limit, and `saturation = bandwidth / limit`. */
  datatype SegmentRow = SegmentRow(segment: string, bandwidth: int, limit: int, saturation: real)

  /** The rows so far and the running `segment_bandwidth_total` and
      `segment_capacity_total`. */
  datatype Accum = Accum(rows: seq<SegmentRow>, bandwidthTotal: int, capacityTotal: int)

  /** Row `row` is the one the loop writes for segment `seg`: the segment's
      sums (each started at `seed`), a non-zero limit and the exact saturation. */
  predicate RowFor(row: SegmentRow, rs: seq<CoreRecord>, seg: string, seed: int) {
    && GroupSum(rs, seg, seed).Ok?
    && row.segment == seg
    && row.bandwidth == GroupSum(rs, seg, seed).value.0
    && row.limit == GroupSum(rs, seg, seed).value.1
    && row.limit != 0
    && row.saturation * row.limit as real == row.bandwidth as real
  }

  /** One iteration of `for segment in segments:`: the segment's sums, its
      saturation, and the running totals. It raises what the inner loop raises,
      or ZeroDivisionError on a zero limit sum, and otherwise appends the
      segment's row and adds its sums to the totals. */
  function Step(acc: Accum, rs: seq<CoreRecord>, seg: string, seed: int): (r: Result<Accum>)
    ensures r.Ok? <==> GroupSum(rs, seg, seed).Ok? && GroupSum(rs, seg, seed).value.1 != 0
    ensures r.Err? && GroupSum(rs, seg, seed).Ok? ==> r.error == ZeroDivisionError
    ensures r.Err? && GroupSum(rs, seg, seed).Err? ==> r.error == GroupSum(rs, seg, seed).error
    ensures r.Ok? ==>
              && |r.value.rows| == |acc.rows| + 1
              && r.value.rows[..|acc.rows|] == acc.rows
              && RowFor(r.value.rows[|acc.rows|], rs, seg, seed)
              && r.value.bandwidthTotal == acc.bandwidthTotal + r.value.rows[|acc.rows|].bandwidth
              && r.value.capacityTotal == acc.capacityTotal + r.value.rows[|acc.rows|].limit
  {
    match GroupSum(rs, seg, seed)
    case Err(e) => Err(e)
    case Ok(sums) =>
      match Div(sums.0 as real, sums.1 as real)
      case Err(e) => Err(e)
      case Ok(sat) =>
        assert [SegmentRow(seg, sums.0, sums.1, sat)][0].segment == seg;
        Ok(Accum(acc.rows + [SegmentRow(seg, sums.0, sums.1, sat)],
                 acc.bandwidthTotal + sums.0,
                 acc.capacityTotal + sums.1))
  }

  /** Specification of `for segment in segments:` in old.py and main.py, where
      `order` is the iteration order of the `segments` set and both the
      accumulators of each segment and the running totals start at `seed`. */
  function SegmentRows(rs: seq<CoreRecord>, order: seq<string>, seed: int): Result<Accum>
    decreases |order|
  {
    if order == [] then Ok(Accum([], seed, seed))
    else
      var prev := SegmentRows(rs, order[..|order| - 1], seed);
      if prev.Err? then prev else Step(prev.value, rs, order[|order| - 1], seed)
  }

  lemma {:induction false} SegmentRowsErrSticky(rs: seq<CoreRecord>, order: seq<string>, seed: int, n: nat)
    requires n <= |order|
    requires SegmentRows(rs, order[..n], seed).Err?
    ensures SegmentRows(rs, order, seed) == SegmentRows(rs, order[..n], seed)
    decreases |order|
  {
    if n < |order| {
      var init := order[..|order| - 1];
      assert init[..n] == order[..n];
      SegmentRowsErrSticky(rs, init, seed, n);
    } else {
      assert order[..n] == order;
    }
  }

  /** The rows of the segments summed before the first one that raises: all of
      them when none raises. */
  function DoneRows(rs: seq<CoreRecord>, order: seq<string>, seed: int): seq<SegmentRow>
    decreases |order|
  {
    if order == [] then []
    else
      var prev := SegmentRows(rs, order[..|order| - 1], seed);
      if prev.Err? then DoneRows(rs, order[..|order| - 1], seed)
      else match SegmentRows(rs, order, seed)
        case Ok(acc) => acc.rows
        case Err(_) => prev.value.rows
  }

  /** When the outer loop completes, every segment's row is done. */
  lemma {:induction false} DoneRowsOk(rs: seq<CoreRecord>, order: seq<string>, seed: int)
    requires SegmentRows(rs, order, seed).Ok?
    ensures DoneRows(rs, order, seed) == SegmentRows(rs, order, seed).value.rows
  {
  }

  /** When segment `j` is the first that raises, the done rows are those of the
      segments before it. */
  lemma {:induction false} DoneRowsAt(rs: seq<CoreRecord>, order: seq<string>, seed: int, j: nat)
    requires j < |order|
    requires SegmentRows(rs, order[..j], seed).Ok? && SegmentRows(rs, order[..j + 1], seed).Err?
    ensures DoneRows(rs, order, seed) == SegmentRows(rs, order[..j], seed).value.rows
    decreases |order|
  {
    var init := order[..|order| - 1];
    if j + 1 == |order| {
      assert init == order[..j];
      assert order[..j + 1] == order;
    } else {
      assert init[..j] == order[..j] && init[..j + 1] == order[..j + 1];
      SegmentRowsErrSticky(rs, init, seed, j + 1);
      DoneRowsAt(rs, init, seed, j);
    }
  }

  /** The outer loop of the aggregation (without the final division). */
  method SummarizeSegments(rs: seq<CoreRecord>, order: seq<string>, seed: int) returns (r: Result<Accum>)
    ensures r == SegmentRows(rs, order, seed)
  {
    var rows: seq<SegmentRow> := [];
    var bandwidthTotal := seed;
    var capacityTotal := seed;
    var i := 0;
    while i < |order|
      invariant 0 <= i <= |order|
      invariant SegmentRows(rs, order[..i], seed) == Ok(Accum(rows, bandwidthTotal, capacityTotal))
    {
      assert order[..i + 1][..i] == order[..i];
      var sums := SumSegment(rs, order[i], seed);
      if sums.Err? {
        SegmentRowsErrSticky(rs, order, seed, i + 1);
        return Err(sums.error);
      }
      var segmentBandwidth := sums.value.0;
      var segmentLimit := sums.value.1;
      if segmentLimit == 0 {
        SegmentRowsErrSticky(rs, order, seed, i + 1);
        return Err(ZeroDivisionError);
      }
      var saturation := segmentBandwidth as real / segmentLimit as real;
      bandwidthTotal := bandwidthTotal + segmentBandwidth;
      capacityTotal := capacityTotal + segmentLimit;
      rows := rows + [SegmentRow(order[i], segmentBandwidth, segmentLimit, saturation)];
      i := i + 1;
    }
    assert order[..i] == order;
    r := Ok(Accum(rows, bandwidthTotal, capacityTotal));
  }

  /** The summed column of a row. */
  function RowAmount(row: SegmentRow, c: Column): int {
    match c case Bandwidth => row.bandwidth case Limit => row.limit
  }

  /** The running total that accumulates a column. */
  function AccTotal(acc: Accum, c: Column): int {
    match c case Bandwidth => acc.bandwidthTotal case Limit => acc.capacityTotal
  }

  /** Sum of one column over the rows. */
  function RowTotal(rows: seq<SegmentRow>, c: Column): int
    decreases |rows|
  {
    if rows == [] then 0 else RowTotal(rows[..|rows| - 1], c) + RowAmount(rows[|rows| - 1], c)
  }

  /** The outer loop succeeds exactly when every segment's sums succeed and its
      limit sum is non-zero. */
  lemma {:induction false} SegmentRowsOk(rs: seq<CoreRecord>, order: seq<string>, seed: int)
    ensures SegmentRows(rs, order, seed).Ok? <==>
              forall i :: 0 <= i < |order| ==>
                GroupSum(rs, order[i], seed).Ok? && GroupSum(rs, order[i], seed).value.1 != 0
    decreases |order|
  {
    if order != [] {
      var init := order[..|order| - 1];
      SegmentRowsOk(rs, init, seed);
      assert forall i :: 0 <= i < |init| ==> init[i] == order[i];
    }
  }

  /** One row per segment, and running totals that are the seed plus the rows'
      column sums. */
  lemma {:induction false} SegmentRowsTotals(rs: seq<CoreRecord>, order: seq<string>, seed: int, c: Column)
    requires SegmentRows(rs, order, seed).Ok?
    ensures |SegmentRows(rs, order, seed).value.rows| == |order|
    ensures AccTotal(SegmentRows(rs, order, seed).value, c) ==
              seed + RowTotal(SegmentRows(rs, order, seed).value.rows, c)
    decreases |order|
  {
    if order != [] {
      var init := order[..|order| - 1];
      SegmentRowsTotals(rs, init, seed, c);
      var rows := SegmentRows(rs, order, seed).value.rows;
      assert rows[..|rows| - 1] == SegmentRows(rs, init, seed).value.rows;
    }
  }

  /** Row `i` is the row of the `i`-th segment of the iteration. */
  lemma {:induction false} SegmentRowsAt(rs: seq<CoreRecord>, order: seq<string>, seed: int, i: int)
    requires SegmentRows(rs, order, seed).Ok?
    requires 0 <= i < |order|
    ensures i < |SegmentRows(rs, order, seed).value.rows|
    ensures RowFor(SegmentRows(rs, order, seed).value.rows[i], rs, order[i], seed)
    decreases |order|
  {
    var init := order[..|order| - 1];
    var prev := SegmentRows(rs, init, seed);
    var rows := SegmentRows(rs, order, seed).value.rows;
    SegmentRowsTotals(rs, init, seed, Bandwidth);
    assert rows[..|prev.value.rows|] == prev.value.rows;
    if i < |init| {
      SegmentRowsAt(rs, init, seed, i);
      assert rows[i] == prev.value.rows[i];
    }
  }

  // ---------------------------------------------------------------------------
  // Set iteration and the partition of the totals
  // ---------------------------------------------------------------------------

  /** The segments that occur in the records (`segments = set(...)`). */
  function SegmentSet(rs: seq<CoreRecord>): set<string> {
    set r | r in rs :: r.segment
  }

  /** `order` is an iteration order of `SegmentSet(rs)`: every segment once. */
  predicate EnumeratesSegments(order: seq<string>, rs: seq<CoreRecord>) {
    (forall i, j :: 0 <= i < j < |order| ==> order[i] != order[j]) &&
    (forall i :: 0 <= i < |order| ==> order[i] in SegmentSet(rs)) &&
    (forall r :: r in rs ==> r.segment in order)
  }

  /** Sum over the segments of `order` of each segment's column sum. */
  function PerSegment(rs: seq<CoreRecord>, order: seq<string>, c: Column): int
    decreases |order|
  {
    if order == [] then 0
    else PerSegment(rs, order[..|order| - 1], c) + Total(Matching(rs, order[|order| - 1]), c)
  }

  lemma {:induction false} MatchingSingle(r: CoreRecord, seg: string, c: Column)
    ensures Total(Matching([r], seg), c) == if r.segment == seg then Amount(r, c) else 0
  {
    assert [r][..0] == [];
    assert Matching([], seg) == [];
    var m := Matching([r], seg);
    assert m == Matching([r][..0], seg) + (if r.segment == seg then [r] else []);
    if r.segment == seg {
      assert m == [r];
      assert m[..0] == [];
      assert Total(m, c) == Total([], c) + Amount(r, c);
    } else {
      assert m == [];
    }
  }

  /** A record's amount is counted once, for the one segment it belongs to. */
  lemma {:induction false} CountedOnce(order: seq<string>, r: CoreRecord, c: Column)
    requires forall i, j :: 0 <= i < j < |order| ==> order[i] != order[j]
    ensures PerSegment([r], order, c) == if r.segment in order then Amount(r, c) else 0
    decreases |order|
  {
    if order != [] {
      var init := order[..|order| - 1];
      CountedOnce(init, r, c);
      MatchingSingle(r, order[|order| - 1], c);
      if r.segment == order[|order| - 1] {
        assert r.segment !in init;
      }
      assert r.segment in order <==> r.segment in init || r.segment == order[|order| - 1];
    }
  }

  lemma {:induction false} TotalAppend(a: seq<CoreRecord>, b: seq<CoreRecord>, c: Column)
    ensures Total(a + b, c) == Total(a, c) + Total(b, c)
    decreases |b|
  {
    if b == [] {
      assert a + b == a;
    } else {
      assert (a + b)[..|a + b| - 1] == a + b[..|b| - 1];
      TotalAppend(a, b[..|b| - 1], c);
    }
  }

  lemma {:induction false} MatchingAppend(rs: seq<CoreRecord>, r: CoreRecord, seg: string)
    ensures Matching(rs + [r], seg) == Matching(rs, seg) + Matching([r], seg)
  {
    assert (rs + [r])[..|rs|] == rs;
    assert [r][..0] == [];
  }

  /** Appending a record adds its contribution to the per-segment sums. */
  lemma {:induction false} PerSegmentSnoc(rs: seq<CoreRecord>, r: CoreRecord, order: seq<string>, c: Column)
    ensures PerSegment(rs + [r], order, c) == PerSegment(rs, order, c) + PerSegment([r], order, c)
    decreases |order|
  {
    if order != [] {
      var init := order[..|order| - 1];
      PerSegmentSnoc(rs, r, init, c);
      var seg := order[|order| - 1];
      MatchingAppend(rs, r, seg);
      TotalAppend(Matching(rs, seg), Matching([r], seg), c);
    }
  }

  lemma {:induction false} PerSegmentEmpty(order: seq<string>, c: Column)
    ensures PerSegment([], order, c) == 0
    decreases |order|
  {
    if order != [] {
      PerSegmentEmpty(order[..|order| - 1], c);
    }
  }

  /** Grouping loses and double-counts nothing: summed over an enumeration of
      the segments, the per-segment sums give the sum over all records. */
  lemma {:induction false} PartitionTotal(rs: seq<CoreRecord>, order: seq<string>, c: Column)
    requires forall i, j :: 0 <= i < j < |order| ==> order[i] != order[j]
    requires forall r :: r in rs ==> r.segment in order
    ensures PerSegment(rs, order, c) == Total(rs, c)
    decreases |rs|
  {
    if rs == [] {
      PerSegmentEmpty(order, c);
    } else {
      var init := rs[..|rs| - 1];
      var r := rs[|rs| - 1];
      assert init + [r] == rs;
      assert forall x :: x in init ==> x in rs;
      PartitionTotal(init, order, c);
      PerSegmentSnoc(init, r, order, c);
      CountedOnce(order, r, c);
    }
  }

  /** The rows summed column-wise are the per-segment sums plus one seed per row. */
  lemma {:induction false} RowTotalPerSegment(rs: seq<CoreRecord>, order: seq<string>, seed: int, c: Column)
    requires SegmentRows(rs, order, seed).Ok?
    ensures RowTotal(SegmentRows(rs, order, seed).value.rows, c) == seed * |order| + PerSegment(rs, order, c)
    decreases |order|
  {
    if order != [] {
      var init := order[..|order| - 1];
      var seg := order[|order| - 1];
      var prev := SegmentRows(rs, init, seed).value.rows;
      RowTotalPerSegment(rs, init, seed, c);
      var rows := SegmentRows(rs, order, seed).value.rows;
      assert rows[..|rows| - 1] == prev;
      var last := rows[|rows| - 1];
      assert RowFor(last, rs, seg, seed);
      GroupSumSums(rs, seg, seed, c);
      assert RowAmount(last, c) == Pick(GroupSum(rs, seg, seed).value, c);
      assert RowTotal(rows, c) == RowTotal(prev, c) + RowAmount(last, c);
      MulSucc(seed, |init|);
    }
  }

  lemma MulSucc(a: int, n: nat)
    ensures a * (n + 1) == a * n + a
  {
  }

  /** The running totals at the end of the outer loop: with `order` an
      enumeration of the segments, each total is the seed counted once per
      segment and once more, plus the column's sum over every record. With
      seed 0 they are the plain sums over all records. */
  lemma {:induction false} TotalsOverAllRecords(rs: seq<CoreRecord>, order: seq<string>, seed: int, c: Column)
    requires EnumeratesSegments(order, rs)
    requires SegmentRows(rs, order, seed).Ok?
    ensures AccTotal(SegmentRows(rs, order, seed).value, c) == seed * (|order| + 1) + Total(rs, c)
  {
    SegmentRowsTotals(rs, order, seed, c);
    RowTotalPerSegment(rs, order, seed, c);
    PartitionTotal(rs, order, c);
    MulSucc(seed, |order|);
  }

  // ---------------------------------------------------------------------------
  // old.py / main.py: the Total row after the loop
  // ---------------------------------------------------------------------------

  /** The segment rows, the totals and `segment_saturation`. */
  datatype Summary = Summary(rows: seq<SegmentRow>, bandwidthTotal: int, capacityTotal: int, saturation: real)

  /** The aggregation of old.py and main.py: the outer loop with seed 0, then
      `segment_bandwidth_total / segment_capacity_total`. */
  function Aggregate(rs: seq<CoreRecord>, order: seq<string>): Result<Summary> {
    match SegmentRows(rs, order, 0)
    case Err(e) => Err(e)
    case Ok(acc) =>
      match Div(acc.bandwidthTotal as real, acc.capacityTotal as real)
      case Err(e) => Err(e)
      case Ok(sat) => Ok(Summary(acc.rows, acc.bandwidthTotal, acc.capacityTotal, sat))
  }

  /** The aggregation as the scripts run it. */
  method AggregateSegments(rs: seq<CoreRecord>, order: seq<string>) returns (r: Result<Summary>)
    ensures r == Aggregate(rs, order)
  {
    var acc := SummarizeSegments(rs, order, 0);
    if acc.Err? {
      return Err(acc.error);
    }
    var bandwidthTotal := acc.value.bandwidthTotal;
    var capacityTotal := acc.value.capacityTotal;
    if capacityTotal == 0 {
      return Err(ZeroDivisionError);
    }
    r := Ok(Summary(acc.value.rows, bandwidthTotal, capacityTotal, bandwidthTotal as real / capacityTotal as real));
  }

  /** An enumeration of a set without repetitions is as long as the set. */
  lemma {:induction false} EnumerationSize(order: seq<string>, rs: seq<CoreRecord>)
    requires EnumeratesSegments(order, rs)
    ensures |order| == |SegmentSet(rs)|
  {
    var s := set i | 0 <= i < |order| :: order[i];
    assert s == SegmentSet(rs) by {
      forall x | x in SegmentSet(rs) ensures x in s {
        var r :| r in rs && r.segment == x;
        var i :| 0 <= i < |order| && order[i] == x;
      }
    }
    DistinctCard(order);
  }

  lemma {:induction false} DistinctCard(order: seq<string>)
    requires forall i, j :: 0 <= i < j < |order| ==> order[i] != order[j]
    ensures |set i | 0 <= i < |order| :: order[i]| == |order|
    decreases |order|
  {
    if order != [] {
      var init := order[..|order| - 1];
      DistinctCard(init);
      var a := set i | 0 <= i < |init| :: init[i];
      var b := set i | 0 <= i < |order| :: order[i];
      assert b == a + {order[|order| - 1]};
      assert order[|order| - 1] !in a;
    }
  }

  /** With the set enumerated, the loop writes one row per distinct segment:
      exactly the segments of the records occur, each once. */
  lemma {:induction false} SegmentRowsCover(rs: seq<CoreRecord>, order: seq<string>, seed: int)
    requires EnumeratesSegments(order, rs)
    requires SegmentRows(rs, order, seed).Ok?
    ensures |SegmentRows(rs, order, seed).value.rows| == |SegmentSet(rs)|
    ensures forall s :: s in SegmentSet(rs) <==>
              exists i :: 0 <= i < |SegmentRows(rs, order, seed).value.rows| &&
                          SegmentRows(rs, order, seed).value.rows[i].segment == s
    ensures forall i, j :: 0 <= i < j < |SegmentRows(rs, order, seed).value.rows| ==>
              SegmentRows(rs, order, seed).value.rows[i].segment != SegmentRows(rs, order, seed).value.rows[j].segment
  {
    var rows := SegmentRows(rs, order, seed).value.rows;
    SegmentRowsTotals(rs, order, seed, Bandwidth);
    EnumerationSize(order, rs);
    forall s | s in SegmentSet(rs)
      ensures exists i :: 0 <= i < |rows| && rows[i].segment == s
    {
      var r :| r in rs && r.segment == s;
      var i :| 0 <= i < |order| && order[i] == s;
      SegmentRowsAt(rs, order, seed, i);
    }
    forall i | 0 <= i < |rows|
      ensures rows[i].segment == order[i]
    {
      SegmentRowsAt(rs, order, seed, i);
    }
  }

  /** With the set enumerated, a successful aggregation keeps the loop's rows
      and ends with a Total row whose bandwidth and capacity are the sums over
      all records and whose saturation is their exact ratio. */
  lemma {:induction false} AggregateTotals(rs: seq<CoreRecord>, order: seq<string>)
    requires EnumeratesSegments(order, rs)
    requires Aggregate(rs, order).Ok?
    ensures SegmentRows(rs, order, 0).Ok?
    ensures Aggregate(rs, order).value.rows == SegmentRows(rs, order, 0).value.rows
    ensures Aggregate(rs, order).value.bandwidthTotal == Total(rs, Bandwidth)
    ensures Aggregate(rs, order).value.capacityTotal == Total(rs, Limit)
    ensures Aggregate(rs, order).value.capacityTotal != 0
  {
    var acc := SegmentRows(rs, order, 0).value;
    assert Aggregate(rs, order).value.bandwidthTotal == acc.bandwidthTotal;
    assert Aggregate(rs, order).value.capacityTotal == acc.capacityTotal;
    TotalsOverAllRecords(rs, order, 0, Bandwidth);
    TotalsOverAllRecords(rs, order, 0, Limit);
  }

  /** The Total row's saturation is the exact ratio of its two totals. */
  lemma {:induction false} AggregateSaturation(rs: seq<CoreRecord>, order: seq<string>)
    requires Aggregate(rs, order).Ok?
    ensures Aggregate(rs, order).value.saturation * Aggregate(rs, order).value.capacityTotal as real
              == Aggregate(rs, order).value.bandwidthTotal as real
  {
    var acc := SegmentRows(rs, order, 0).value;
    var d := Div(acc.bandwidthTotal as real, acc.capacityTotal as real);
    assert Aggregate(rs, order).value == Summary(acc.rows, acc.bandwidthTotal, acc.capacityTotal, d.value);
  }

  /** No Core record at all: the Total division is `0 / 0`. */
  lemma {:induction false} AggregateEmpty(order: seq<string>)
    requires EnumeratesSegments(order, [])
    ensures Aggregate([], order) == Err(ZeroDivisionError)
  {
    EnumerationSize(order, []);
    assert SegmentSet([]) == {};
  }

  /** A Core record without `kpi_cktmaxlimit` makes the aggregation raise. */
  lemma {:induction false} MissingLimitFails(rs: seq<CoreRecord>, order: seq<string>, k: int)
    requires EnumeratesSegments(order, rs)
    requires 0 <= k < |rs| && rs[k].limit.None?
    ensures Aggregate(rs, order).Err?
  {
    assert rs[k] in rs;
    var j :| 0 <= j < |order| && order[j] == rs[k].segment;
    GroupSumOk(rs, order[j], 0);
    SegmentRowsOk(rs, order, 0);
  }

  // ---------------------------------------------------------------------------
  // kpi_report_bandwidth.py: `summary_out`
  // ---------------------------------------------------------------------------

  function Abs(a: int): nat { if a < 0 then -a else a }

  /** Python's `^` on ints: bitwise exclusive or on infinite two's complement. */
  function Xor(a: int, b: int): int
    decreases Abs(a) + Abs(b)
  {
    if (a == 0 || a == -1) && (b == 0 || b == -1) then (if a == b then 0 else -1)
    else
      2 * Xor(a / 2, b / 2) + (a % 2 + b % 2) % 2
  }

  /** The accumulators' start value `1*10^(-25)`: `^` binds looser than `*` and
      is exclusive or, so it is `10 ^ -25`. */
  const KpiSeed: int := Xor(1 * 10, -25)

  /** ... which is -19, not ten to the minus 25th. */
  lemma SeedIsMinusNineteen()
    ensures KpiSeed == -19
  {
    assert Xor(0, -1) == -1;
    assert Xor(0, -2) == 2 * Xor(0, -1) + 0;
    assert Xor(1, -4) == 2 * Xor(0, -2) + 1;
    assert Xor(2, -7) == 2 * Xor(1, -4) + 1;
    assert Xor(5, -13) == 2 * Xor(2, -7) + 0;
    assert Xor(10, -25) == 2 * Xor(5, -13) + 1;
  }

  /** What one iteration of `summary_out` computes: the segment row and the
      Total row after it, whose MaxCapacity column repeats the running
      bandwidth total. */
  datatype KpiRows = KpiRows(segment: SegmentRow, totalBandwidth: int, totalMaxCapacity: int, totalUtilization: real)

  /** The outer loop's accumulators and the rows emitted so far. */
  datatype KpiState = KpiState(acc: Accum, out: seq<KpiRows>)

  /** Specification of the loop of `summary_out`: the outer loop of old.py
      seeded with `KpiSeed`, dividing the running totals inside the loop. */
  function KpiLoop(rs: seq<CoreRecord>, order: seq<string>): Result<KpiState>
    decreases |order|
  {
    if order == [] then Ok(KpiState(Accum([], KpiSeed, KpiSeed), []))
    else
      var prev := KpiLoop(rs, order[..|order| - 1]);
      if prev.Err? then prev else KpiNext(prev.value, rs, order[|order| - 1])
  }

  /** One iteration of the loop of `summary_out`: old.py's step, then the
      running saturation of the totals. */
  function KpiNext(p: KpiState, rs: seq<CoreRecord>, seg: string): Result<KpiState> {
    var st := Step(p.acc, rs, seg, KpiSeed);
    if st.Err? then Err(st.error)
    else
      var a := st.value;
      match Div(a.bandwidthTotal as real, a.capacityTotal as real)
      case Err(e) => Err(e)
      case Ok(sat) => Ok(KpiState(a, p.out + [KpiRows(a.rows[|p.acc.rows|], a.bandwidthTotal, a.bandwidthTotal, sat)]))
  }

  lemma {:induction false} KpiLoopStep(rs: seq<CoreRecord>, order: seq<string>, i: nat)
    requires i < |order| && KpiLoop(rs, order[..i]).Ok?
    ensures KpiLoop(rs, order[..i + 1]) == KpiNext(KpiLoop(rs, order[..i]).value, rs, order[i])
  {
    assert order[..i + 1][..i] == order[..i];
  }

  /** An iteration that completes: the segment's row, the totals and the
      totals' saturation. */
  lemma {:induction false} KpiNextOk(p: KpiState, rs: seq<CoreRecord>, seg: string, sums: (int, int),
                                     bw: int, cap: int, sat: real, total: real)
    requires GroupSum(rs, seg, KpiSeed) == Ok(sums) && sums.1 != 0 && cap != 0
    requires bw == p.acc.bandwidthTotal + sums.0 && cap == p.acc.capacityTotal + sums.1
    requires sat == sums.0 as real / sums.1 as real && total == bw as real / cap as real
    ensures KpiNext(p, rs, seg) ==
      Ok(KpiState(Accum(p.acc.rows + [SegmentRow(seg, sums.0, sums.1, sat)], bw, cap),
                  p.out + [KpiRows(SegmentRow(seg, sums.0, sums.1, sat), bw, bw, total)]))
  {
    var row := SegmentRow(seg, sums.0, sums.1, sat);
    assert Step(p.acc, rs, seg, KpiSeed) == Ok(Accum(p.acc.rows + [row], bw, cap));
    assert (p.acc.rows + [row])[|p.acc.rows|] == row;
  }

  /** The iterations that raise: what the inner loop raises, or
      ZeroDivisionError on a zero limit sum or a zero capacity total. */
  lemma {:induction false} KpiNextErr(p: KpiState, rs: seq<CoreRecord>, seg: string)
    requires GroupSum(rs, seg, KpiSeed).Ok? ==>
               GroupSum(rs, seg, KpiSeed).value.1 == 0 || p.acc.capacityTotal + GroupSum(rs, seg, KpiSeed).value.1 == 0
    ensures KpiNext(p, rs, seg) == Err(if GroupSum(rs, seg, KpiSeed).Err? then GroupSum(rs, seg, KpiSeed).error else ZeroDivisionError)
  {
  }

  lemma {:induction false} KpiLoopErrSticky(rs: seq<CoreRecord>, order: seq<string>, n: nat)
    requires n <= |order|
    requires KpiLoop(rs, order[..n]).Err?
    ensures KpiLoop(rs, order) == KpiLoop(rs, order[..n])
    decreases |order|
  {
    if n < |order| {
      var init := order[..|order| - 1];
      assert init[..n] == order[..n];
      KpiLoopErrSticky(rs, init, n);
    } else {
      assert order[..n] == order;
    }
  }

  /** `summary_out()` of kpi_report_bandwidth.py, with the DataFrame writes
      replaced by the rows they would receive. */
  method SummaryOut(rs: seq<CoreRecord>, order: seq<string>) returns (r: Result<seq<KpiRows>>)
    ensures KpiLoop(rs, order).Ok? ==> r == Ok(KpiLoop(rs, order).value.out)
    ensures KpiLoop(rs, order).Err? ==> r == Err(KpiLoop(rs, order).error)
  {
    var rows: seq<SegmentRow> := [];
    var out: seq<KpiRows> := [];
    var segmentBandwidthTotal := KpiSeed;
    var segmentCapacityTotal := KpiSeed;
    var i := 0;
    while i < |order|
      invariant 0 <= i <= |order|
      invariant KpiLoop(rs, order[..i]) ==
                  Ok(KpiState(Accum(rows, segmentBandwidthTotal, segmentCapacityTotal), out))
    {
      KpiLoopStep(rs, order, i);
      ghost var p := KpiState(Accum(rows, segmentBandwidthTotal, segmentCapacityTotal), out);
      var sums := SumSegment(rs, order[i], KpiSeed);
      if sums.Err? {
        KpiNextErr(p, rs, order[i]);
        KpiLoopErrSticky(rs, order, i + 1);
        return Err(sums.error);
      }
      var segmentBandwidth := sums.value.0;
      var segmentLimit := sums.value.1;
      if segmentLimit == 0 {
        KpiNextErr(p, rs, order[i]);
        KpiLoopErrSticky(rs, order, i + 1);
        return Err(ZeroDivisionError);
      }
      var saturation := segmentBandwidth as real / segmentLimit as real;
      segmentBandwidthTotal := segmentBandwidthTotal + segmentBandwidth;
      segmentCapacityTotal := segmentCapacityTotal + segmentLimit;
      if segmentCapacityTotal == 0 {
        KpiNextErr(p, rs, order[i]);
        KpiLoopErrSticky(rs, order, i + 1);
        return Err(ZeroDivisionError);
      }
      var segmentSaturation := segmentBandwidthTotal as real / segmentCapacityTotal as real;
      KpiNextOk(p, rs, order[i], sums.value, segmentBandwidthTotal, segmentCapacityTotal, saturation, segmentSaturation);
      var row := SegmentRow(order[i], segmentBandwidth, segmentLimit, saturation);
      rows := rows + [row];
      out := out + [KpiRows(row, segmentBandwidthTotal, segmentBandwidthTotal, segmentSaturation)];
      i := i + 1;
    }
    assert order[..i] == order;
    r := Ok(out);
  }

  /** The loop of `summary_out` runs the same accumulators as old.py's outer
      loop (with the kpi seed) and emits one pair of rows per segment. */
  lemma {:induction false} KpiLoopAcc(rs: seq<CoreRecord>, order: seq<string>)
    requires KpiLoop(rs, order).Ok?
    ensures SegmentRows(rs, order, KpiSeed) == Ok(KpiLoop(rs, order).value.acc)
    ensures |KpiLoop(rs, order).value.out| == |order|
    decreases |order|
  {
    if order != [] {
      KpiLoopAcc(rs, order[..|order| - 1]);
    }
  }

  /** Row `i` of `summary_out`: the segment's sums are -19 plus the sums over
      its records, and the Total row's MaxCapacity is the running bandwidth
      total rather than the capacity total. */
  lemma {:induction false} KpiSummaryRows(rs: seq<CoreRecord>, order: seq<string>, i: int)
    requires KpiLoop(rs, order).Ok?
    requires 0 <= i < |order|
    ensures i < |KpiLoop(rs, order).value.out|
    ensures KpiLoop(rs, order).value.out[i].segment.segment == order[i]
    ensures KpiLoop(rs, order).value.out[i].segment.bandwidth == -19 + Total(Matching(rs, order[i]), Bandwidth)
    ensures KpiLoop(rs, order).value.out[i].segment.limit == -19 + Total(Matching(rs, order[i]), Limit)
    ensures KpiLoop(rs, order).value.out[i].totalMaxCapacity == KpiLoop(rs, order).value.out[i].totalBandwidth
    decreases |order|
  {
    var init := order[..|order| - 1];
    var prev := KpiLoop(rs, init);
    assert prev.Ok?;
    KpiLoopAcc(rs, init);
    var seg := order[|order| - 1];
    assert KpiLoop(rs, order) == KpiNext(prev.value, rs, seg);
    KpiNextRow(prev.value, rs, seg);
    var out := KpiLoop(rs, order).value.out;
    if i < |init| {
      KpiSummaryRows(rs, init, i);
      assert out[i] == out[..|prev.value.out|][i];
    } else {
      assert i == |prev.value.out| && order[i] == seg;
      SeedIsMinusNineteen();
      GroupSumSums(rs, order[i], KpiSeed, Bandwidth);
      GroupSumSums(rs, order[i], KpiSeed, Limit);
    }
  }

  /** One iteration of the loop of `summary_out` appends one pair of rows: the
      segment's row and the Total row whose MaxCapacity is the bandwidth total. */
  lemma {:induction false} KpiNextRow(p: KpiState, rs: seq<CoreRecord>, seg: string)
    requires KpiNext(p, rs, seg).Ok?
    ensures var q := KpiNext(p, rs, seg).value;
      && |q.out| == |p.out| + 1 && q.out[..|p.out|] == p.out
      && q.out[|p.out|].segment.segment == seg && RowFor(q.out[|p.out|].segment, rs, seg, KpiSeed)
      && q.out[|p.out|].totalMaxCapacity == q.out[|p.out|].totalBandwidth
  {
  }
}

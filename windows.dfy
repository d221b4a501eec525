/**
 * Calendar arithmetic on whole-day offsets, with "now" taken as day 0.
 *
 * `TimeWindowFrames` is the window table of kpi_report_bandwidth.py: a
 * window id, compared after `str()`, names a (start, end) pair of day
 * offsets (negative = in the past).  `Classify` is the date ladder of
 * kpi_report_bandwidth_opt.py's `storeAPIResponse`, stated on the number
 * of days a sample lies back from today.
 */
module Windows {
  import opened Py
  import opened PyStr

  /** A window id as the caller passes it: an int or a string. */
  datatype WindowId = IdInt(n: int) | IdStr(s: string)

  /** `str(timeFrameIDRAW)` */
  function IdText(id: WindowId): string {
    match id
    case IdInt(n) => IntToString(n)
    case IdStr(s) => s
  }

  /** `None` models the "Invalid arguments" branch, which prints and returns nothing. */
  function TimeWindowFrames(id: WindowId): (r: Option<(int, int)>)
    ensures r.Some? <==> IdText(id) in ["0", "1", "2", "3"]
  {
    var t := IdText(id);
    if t == "0" then Some((-14, -1))
    else if t == "1" then Some((-21, -7))
    else if t == "2" then Some((-28, -14))
    else if t == "3" then Some((-35, -21))
    else None
  }

  /** Reference description of window d (0 <= d <= 3): it reaches back 14 + 7d days and,
      except the default window, ends 7d days back. */
  function WindowStart(d: nat): int { -14 - 7 * d }
  function WindowEnd(d: nat): int { if d == 0 then -1 else -7 * d }

  /** An integer id names a window exactly when it is 0..3, and then yields the reference window. */
  lemma {:induction false} IntWindows(n: int)
    ensures TimeWindowFrames(IdInt(n)).Some? <==> 0 <= n <= 3
    ensures 0 <= n <= 3 ==> TimeWindowFrames(IdInt(n)) == Some((WindowStart(n), WindowEnd(n)))
  {
    IntToStringDigit(n, 0);
    IntToStringDigit(n, 1);
    IntToStringDigit(n, 2);
    IntToStringDigit(n, 3);
    assert [DigitChar(0)] == "0" && [DigitChar(1)] == "1";
    assert [DigitChar(2)] == "2" && [DigitChar(3)] == "3";
  }

  /** Because ids are compared after `str()`, the int d and the string "d" name the same window. */
  lemma {:induction false} IntStrAgree(d: nat)
    requires d <= 3
    ensures TimeWindowFrames(IdInt(d)) == TimeWindowFrames(IdStr([DigitChar(d)]))
    ensures TimeWindowFrames(IdStr([DigitChar(d)])).Some?
  {
    IntToStringDigit(d, d);
    assert [DigitChar(0)] == "0" && [DigitChar(1)] == "1";
    assert [DigitChar(2)] == "2" && [DigitChar(3)] == "3";
  }

  /** Every window is non-empty, lies in the past, the default window is 13 days wide and
      the others 14. */
  lemma {:induction false} WindowShape(id: WindowId)
    requires TimeWindowFrames(id).Some?
    ensures TimeWindowFrames(id).value.0 < TimeWindowFrames(id).value.1 < 0
    ensures IdText(id) == "0" ==> TimeWindowFrames(id).value.1 - TimeWindowFrames(id).value.0 == 13
    ensures IdText(id) != "0" ==> TimeWindowFrames(id).value.1 - TimeWindowFrames(id).value.0 == 14
  {
  }

  /** Successive windows start exactly one week further back. */
  lemma {:induction false} WindowSteps(d: nat)
    requires d < 3
    ensures TimeWindowFrames(IdInt(d + 1)).Some? && TimeWindowFrames(IdInt(d)).Some?
    ensures TimeWindowFrames(IdInt(d + 1)).value.0 == TimeWindowFrames(IdInt(d)).value.0 - 7
  {
    IntWindows(d);
    IntWindows(d + 1);
  }

  /** Where `storeAPIResponse` sends a sample dated k days back (k < 0 is in the future). */
  datatype Bucket = Future | TooFar | Week(w: nat) | Dropped

  function Classify(k: int): (b: Bucket)
    ensures b.Week? ==> b.w <= 3
  {
    if k < 0 then Future
    else if k > 28 then TooFar
    else if k < 7 then Week(0)
    else if k > 21 then Week(1)
    else if 14 < k < 21 then Week(2)
    else if 7 < k < 14 then Week(3)
    else Dropped
  }

  /** Reference: the set of day offsets each bucket takes, stated independently of the ladder. */
  predicate InBucket(k: int, b: Bucket) {
    match b
    case Future => k < 0
    case TooFar => 28 < k
    case Week(w) =>
      (w == 0 && 0 <= k <= 6) || (w == 1 && 22 <= k <= 28) ||
      (w == 2 && 15 <= k <= 20) || (w == 3 && 8 <= k <= 13)
    case Dropped => k == 7 || k == 14 || k == 21
  }

  /** The ladder agrees with the reference in both directions, so the buckets are disjoint
      and together cover every offset. */
  lemma {:induction false} ClassifyExact(k: int, b: Bucket)
    ensures Classify(k) == b <==> InBucket(k, b)
  {
  }

  /** Within 0..28, only the three week boundaries fall through the ladder. */
  lemma {:induction false} ClassifyCovers(k: int)
    requires 0 <= k <= 28
    ensures Classify(k).Week? <==> k != 7 && k != 14 && k != 21
  {
  }

  /** kpi_report_bandwidth.py's supplementary loop `for k in range(1, 3)`: the window ids it
      queries, in order, each resolved through the window table. */
  method SupplementaryWindows() returns (ids: seq<int>, frames: seq<(int, int)>)
    ensures ids == [1, 2]
    ensures |frames| == |ids|
    ensures forall j :: 0 <= j < |ids| ==> TimeWindowFrames(IdInt(ids[j])) == Some(frames[j])
  {
    ids := [];
    frames := [];
    for k := 1 to 3
      invariant ids == seq(k - 1, j => j + 1)
      invariant |frames| == |ids|
      invariant forall j :: 0 <= j < |ids| ==> TimeWindowFrames(IdInt(ids[j])) == Some(frames[j])
    {
      IntWindows(k);
      ids := ids + [k];
      frames := frames + [TimeWindowFrames(IdInt(k)).value];
    }
  }
}

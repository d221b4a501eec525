/** PRTG historic-data samples and the `normalize_traffic` variants that turn
    one speed channel of them into a list of Mb/s values. */
module Traffic {
  import opened Py
  import opened PyStr

  /** A field of a historic-data sample as decoded from JSON: a number, or a
      string (PRTG sends `''` when a channel has no reading). */
  datatype Field = FNum(x: real) | FStr(s: string)

  /** One entry of `data['histdata']`. */
  type Block = map<string, Field>

  const TrafficIn: string := "Traffic In (speed)"
  const TrafficOut: string := "Traffic Out (speed)"

  /** Speed to Mb/s, as exact real multiplication. */
  const Factor: real := 0.000008

  /** Python `int(x)` on a float: truncation toward zero. */
  function Trunc(x: real): (n: int)
    ensures 0.0 <= x ==> n as real <= x < n as real + 1.0
    ensures x < 0.0 ==> n as real - 1.0 < x <= n as real
  {
    if x >= 0.0 then x.Floor else -((-x).Floor)
  }

  // ---------------------------------------------------------------------------
  // Skipping variant (old.py, kpi_report_bandwidth.py)
  // ---------------------------------------------------------------------------

  /** The sample has the channel and it holds `''`: skipped. */
  predicate Blank(b: Block, chan: string) {
    chan in b && b[chan] == FStr("")
  }

  /** The sample has the channel and it holds a number: scaled and kept. */
  predicate Numeric(b: Block, chan: string) {
    chan in b && b[chan].FNum?
  }

  /** The sample is processed without raising. */
  predicate Usable(b: Block, chan: string) {
    Blank(b, chan) || Numeric(b, chan)
  }

  /** What an unusable sample raises: `i[chan]` on a missing channel raises
      KeyError, `str * 0.000008` on a non-empty string raises TypeError. */
  function Raised(b: Block, chan: string): PyError {
    if chan in b then TypeError else KeyError
  }

  /** Specification of the skipping loop over the first `|blocks|` samples. */
  function SkipScaled(blocks: seq<Block>, chan: string): Result<seq<real>>
    decreases |blocks|
  {
    if blocks == [] then Ok([])
    else
      var prev := SkipScaled(blocks[..|blocks| - 1], chan);
      var b := blocks[|blocks| - 1];
      if prev.Err? then prev
      else if Numeric(b, chan) then Ok(prev.value + [b[chan].x * Factor])
      else if Blank(b, chan) then prev
      else Err(Raised(b, chan))
  }

  /** Once a prefix has raised, the whole loop raises the same exception. */
  lemma {:induction false} SkipErrSticky(blocks: seq<Block>, chan: string, n: nat)
    requires n <= |blocks|
    requires SkipScaled(blocks[..n], chan).Err?
    ensures SkipScaled(blocks, chan) == SkipScaled(blocks[..n], chan)
    decreases |blocks|
  {
    if n < |blocks| {
      var init := blocks[..|blocks| - 1];
      assert init[..n] == blocks[..n];
      SkipErrSticky(init, chan, n);
    } else {
      assert blocks[..n] == blocks;
    }
  }

  /** `normalize_traffic(data, chan)` of old.py and kpi_report_bandwidth.py. */
  method NormalizeSkip(histdata: seq<Block>, chan: string) returns (r: Result<seq<real>>)
    ensures r == SkipScaled(histdata, chan)
  {
    var trafficList: seq<real> := [];
    var i := 0;
    while i < |histdata|
      invariant 0 <= i <= |histdata|
      invariant SkipScaled(histdata[..i], chan) == Ok(trafficList)
    {
      var b := histdata[i];
      assert histdata[..i + 1][..i] == histdata[..i];
      if chan !in b {
        SkipErrSticky(histdata, chan, i + 1);
        return Err(KeyError);
      }
      match b[chan] {
        case FNum(x) =>
          trafficList := trafficList + [x * Factor];
        case FStr(s) =>
          if s != "" {
            SkipErrSticky(histdata, chan, i + 1);
            return Err(TypeError);
          }
      }
      i := i + 1;
    }
    assert histdata[..i] == histdata;
    r := Ok(trafficList);
  }

  /** The first sample that the loop cannot process sits at `i`. */
  predicate FirstUnusable(blocks: seq<Block>, chan: string, i: int) {
    0 <= i < |blocks| && !Usable(blocks[i], chan) &&
    forall j :: 0 <= j < i ==> Usable(blocks[j], chan)
  }

  /** The loop returns exactly when every sample is usable; otherwise it raises
      what the first unusable sample raises. */
  lemma {:induction false} SkipOutcome(blocks: seq<Block>, chan: string)
    ensures SkipScaled(blocks, chan).Ok? <==> forall i :: 0 <= i < |blocks| ==> Usable(blocks[i], chan)
    ensures forall i :: FirstUnusable(blocks, chan, i) ==>
              SkipScaled(blocks, chan) == Err(Raised(blocks[i], chan))
    decreases |blocks|
  {
    if blocks != [] {
      var init := blocks[..|blocks| - 1];
      var last := blocks[|blocks| - 1];
      SkipOutcome(init, chan);
      assert forall i :: 0 <= i < |init| ==> init[i] == blocks[i];
      forall i | FirstUnusable(blocks, chan, i)
        ensures SkipScaled(blocks, chan) == Err(Raised(blocks[i], chan))
      {
        if i < |init| {
          assert FirstUnusable(init, chan, i);
        } else {
          assert SkipScaled(init, chan).Ok?;
        }
      }
    }
  }

  /** Number of skipped (blank) samples. */
  function BlankCount(blocks: seq<Block>, chan: string): (n: nat)
    ensures n <= |blocks|
    decreases |blocks|
  {
    if blocks == [] then 0
    else BlankCount(blocks[..|blocks| - 1], chan) + (if Blank(blocks[|blocks| - 1], chan) then 1 else 0)
  }

  /** One output value per sample with a non-empty field: the result is as long
      as the input minus the blank samples, so never longer than the input. */
  lemma {:induction false} SkipLength(blocks: seq<Block>, chan: string)
    requires SkipScaled(blocks, chan).Ok?
    ensures |SkipScaled(blocks, chan).value| == |blocks| - BlankCount(blocks, chan)
    ensures |SkipScaled(blocks, chan).value| <= |blocks|
    decreases |blocks|
  {
    if blocks != [] {
      SkipLength(blocks[..|blocks| - 1], chan);
    }
  }

  /** Positions of the numeric samples, in increasing order. */
  function NumericIndices(blocks: seq<Block>, chan: string): seq<int>
    decreases |blocks|
  {
    if blocks == [] then []
    else
      NumericIndices(blocks[..|blocks| - 1], chan) +
      (if Numeric(blocks[|blocks| - 1], chan) then [|blocks| - 1] else [])
  }

  /** `idx` lists, strictly increasing, exactly the numeric samples of `blocks`. */
  predicate Enumerates(idx: seq<int>, blocks: seq<Block>, chan: string) {
    (forall m :: 0 <= m < |idx| ==> 0 <= idx[m] < |blocks| && Numeric(blocks[idx[m]], chan)) &&
    (forall m, m' :: 0 <= m < m' < |idx| ==> idx[m] < idx[m']) &&
    (forall i :: 0 <= i < |blocks| && Numeric(blocks[i], chan) ==> i in idx)
  }

  /** `vs[m]` is the scaled reading of sample `idx[m]`. */
  predicate ScaledAt(vs: seq<real>, idx: seq<int>, blocks: seq<Block>, chan: string) {
    |vs| == |idx| &&
    forall m :: 0 <= m < |idx| ==>
      0 <= idx[m] < |blocks| && Numeric(blocks[idx[m]], chan) &&
      vs[m] == blocks[idx[m]][chan].x * Factor
  }

  lemma {:induction false} NumericIndicesEnumerate(blocks: seq<Block>, chan: string)
    ensures Enumerates(NumericIndices(blocks, chan), blocks, chan)
    decreases |blocks|
  {
    if blocks != [] {
      var init := blocks[..|blocks| - 1];
      NumericIndicesEnumerate(init, chan);
      assert forall i :: 0 <= i < |init| ==> init[i] == blocks[i];
      var idx := NumericIndices(blocks, chan);
      var pre := NumericIndices(init, chan);
      forall i | 0 <= i < |blocks| && Numeric(blocks[i], chan)
        ensures i in idx
      {
        if i < |init| {
          assert i in pre;
        } else {
          assert idx == pre + [i];
        }
      }
    }
  }

  /** Appending a sample keeps the pairing of values with earlier samples. */
  lemma {:induction false} ScaledAtExtend(vs: seq<real>, idx: seq<int>, blocks: seq<Block>, chan: string)
    requires blocks != [] && ScaledAt(vs, idx, blocks[..|blocks| - 1], chan)
    ensures ScaledAt(vs, idx, blocks, chan)
  {
    forall m | 0 <= m < |idx|
      ensures blocks[..|blocks| - 1][idx[m]] == blocks[idx[m]]
    {
    }
  }

  /** Appending a numeric sample pairs its scaled reading with its position. */
  lemma {:induction false} ScaledAtSnoc(vs: seq<real>, idx: seq<int>, blocks: seq<Block>, chan: string)
    requires blocks != [] && ScaledAt(vs, idx, blocks, chan) && Numeric(blocks[|blocks| - 1], chan)
    ensures ScaledAt(vs + [blocks[|blocks| - 1][chan].x * Factor], idx + [|blocks| - 1], blocks, chan)
  {
    var vs', idx' := vs + [blocks[|blocks| - 1][chan].x * Factor], idx + [|blocks| - 1];
    forall m | 0 <= m < |idx'|
      ensures 0 <= idx'[m] < |blocks| && Numeric(blocks[idx'[m]], chan) && vs'[m] == blocks[idx'[m]][chan].x * Factor
    {
      if m < |idx| {
        assert idx'[m] == idx[m] && vs'[m] == vs[m];
      }
    }
  }

  /** The `m`-th value is the scaled reading of the `m`-th numeric sample. */
  lemma {:induction false} SkipScaledAt(blocks: seq<Block>, chan: string)
    requires SkipScaled(blocks, chan).Ok?
    ensures ScaledAt(SkipScaled(blocks, chan).value, NumericIndices(blocks, chan), blocks, chan)
    decreases |blocks|
  {
    if blocks != [] {
      var init := blocks[..|blocks| - 1];
      var last := blocks[|blocks| - 1];
      assert SkipScaled(init, chan).Ok?;
      SkipScaledAt(init, chan);
      var vs0, idx0 := SkipScaled(init, chan).value, NumericIndices(init, chan);
      ScaledAtExtend(vs0, idx0, blocks, chan);
      if Numeric(last, chan) {
        assert SkipScaled(blocks, chan).value == vs0 + [last[chan].x * Factor];
        assert NumericIndices(blocks, chan) == idx0 + [|blocks| - 1];
        ScaledAtSnoc(vs0, idx0, blocks, chan);
      } else {
        assert SkipScaled(blocks, chan).value == vs0 && NumericIndices(blocks, chan) == idx0;
      }
    }
  }

  /** The values come out in input order: the `m`-th value is the scaled
      reading of the `m`-th numeric sample. */
  lemma {:induction false} SkipInOrder(blocks: seq<Block>, chan: string)
    requires SkipScaled(blocks, chan).Ok?
    ensures Enumerates(NumericIndices(blocks, chan), blocks, chan)
    ensures ScaledAt(SkipScaled(blocks, chan).value, NumericIndices(blocks, chan), blocks, chan)
  {
    NumericIndicesEnumerate(blocks, chan);
    SkipScaledAt(blocks, chan);
  }

  // ---------------------------------------------------------------------------
  // Padding variant (main.py)
  // ---------------------------------------------------------------------------

  /** What one sample contributes in main.py: a successful non-empty reading
      gives `int(v) * 0.000008` followed by the `else:` branch's 1; an empty
      reading gives only that 1; anything that raises (missing channel,
      `int()` of a non-numeric string) is caught and gives 1. */
  function PadOne(b: Block, chan: string): (r: seq<real>)
  {
    if chan !in b then [1.0]
    else match b[chan]
      case FNum(x) => [Trunc(x) as real * Factor, 1.0]
      case FStr(s) =>
        if s == "" then [1.0]
        else match ParseInt(s)
          case Some(n) => [n as real * Factor, 1.0]
          case None => [1.0]
  }

  /** Specification of the padding loop over the first `|blocks|` samples. */
  function Padded(blocks: seq<Block>, chan: string): seq<real>
    decreases |blocks|
  {
    if blocks == [] then []
    else Padded(blocks[..|blocks| - 1], chan) + PadOne(blocks[|blocks| - 1], chan)
  }

  /** `normalize_traffic(data, chan)` of main.py; it never raises. */
  method NormalizePadded(histdata: seq<Block>, chan: string) returns (trafficList: seq<real>)
    ensures trafficList == Padded(histdata, chan)
  {
    trafficList := [];
    var i := 0;
    while i < |histdata|
      invariant 0 <= i <= |histdata|
      invariant trafficList == Padded(histdata[..i], chan)
    {
      var b := histdata[i];
      assert histdata[..i + 1][..i] == histdata[..i];
      if chan !in b {
        trafficList := trafficList + [1.0];
      } else {
        match b[chan] {
          case FNum(x) =>
            trafficList := trafficList + [Trunc(x) as real * Factor];
            trafficList := trafficList + [1.0];
          case FStr(s) =>
          if s != "" {
            var n := ParseInt(s);
            if n.Some? {
              trafficList := trafficList + [n.value as real * Factor];
              trafficList := trafficList + [1.0];
            } else {
              trafficList := trafficList + [1.0];
            }
          } else {
            trafficList := trafficList + [1.0];
          }
        }
      }
      i := i + 1;
    }
    assert histdata[..i] == histdata;
  }

  /** Every sample contributes one or two values, the last of them 1. */
  lemma {:induction false} PadOneShape(b: Block, chan: string)
    ensures 1 <= |PadOne(b, chan)| <= 2
    ensures PadOne(b, chan)[|PadOne(b, chan)| - 1] == 1.0
    ensures |PadOne(b, chan)| == 2 <==> Numeric(b, chan) || (chan in b && b[chan].FStr? && b[chan].s != "" && ParseInt(b[chan].s).Some?)
  {
  }

  /** Between `n` and `2n` values for `n` samples, empty exactly for no samples,
      and, whenever there is a sample, the last value is 1. */
  lemma {:induction false} PaddedLength(blocks: seq<Block>, chan: string)
    ensures |blocks| <= |Padded(blocks, chan)| <= 2 * |blocks|
    ensures Padded(blocks, chan) == [] <==> blocks == []
    ensures blocks != [] ==> Padded(blocks, chan)[|Padded(blocks, chan)| - 1] == 1.0
    decreases |blocks|
  {
    if blocks != [] {
      PaddedLength(blocks[..|blocks| - 1], chan);
      PadOneShape(blocks[|blocks| - 1], chan);
    }
  }

  /** When every sample holds a number, the result alternates the truncated,
      scaled reading of sample `i` (at `2i`) with the padding 1 (at `2i + 1`). */
  lemma {:induction false} PaddedAllNumeric(blocks: seq<Block>, chan: string)
    requires forall i :: 0 <= i < |blocks| ==> Numeric(blocks[i], chan)
    ensures |Padded(blocks, chan)| == 2 * |blocks|
    ensures forall i :: 0 <= i < |blocks| ==>
              && Numeric(blocks[i], chan)
              && Padded(blocks, chan)[2 * i] == Trunc(blocks[i][chan].x) as real * Factor
              && Padded(blocks, chan)[2 * i + 1] == 1.0
    decreases |blocks|
  {
    if blocks != [] {
      var init := blocks[..|blocks| - 1];
      assert forall i :: 0 <= i < |init| ==> init[i] == blocks[i];
      PaddedAllNumeric(init, chan);
    }
  }

  /** Samples with no numeric reading give only padding: all ones, one per sample. */
  lemma {:induction false} PaddedNoReadings(blocks: seq<Block>, chan: string)
    requires forall i :: 0 <= i < |blocks| ==> chan !in blocks[i] || blocks[i][chan] == FStr("")
    ensures Padded(blocks, chan) == seq(|blocks|, i => 1.0)
    decreases |blocks|
  {
    if blocks != [] {
      var init := blocks[..|blocks| - 1];
      assert forall i :: 0 <= i < |init| ==> init[i] == blocks[i];
      PaddedNoReadings(init, chan);
    }
  }

  // ---------------------------------------------------------------------------
  // In-place variant (kpi_report_bandwidth_opt.py), on a single sample
  // ---------------------------------------------------------------------------

  /** What opt's `normalize_traffic` does to the one sample it receives: a
      non-empty numeric field is replaced by its scaled value, which is also the
      single returned element; `''` returns `[]` and leaves the sample alone;
      a non-empty string raises TypeError and a missing field KeyError. */
  function ScaleField(b: Block, chan: string): (r: Result<(Block, seq<real>)>)
    ensures r.Err? <==> !Usable(b, chan)
    ensures r.Err? ==> r.error == Raised(b, chan)
    ensures r.Ok? && Blank(b, chan) ==> r.value == (b, [])
    ensures r.Ok? && Numeric(b, chan) ==>
              r.value.0 == b[chan := FNum(b[chan].x * Factor)] &&
              r.value.1 == [b[chan].x * Factor]
  {
    if Numeric(b, chan) then
      var v := b[chan].x * Factor;
      Ok((b[chan := FNum(v)], [v]))
    else if Blank(b, chan) then Ok((b, []))
    else Err(Raised(b, chan))
  }
}

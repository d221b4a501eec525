/** The tag-string parser `extract_tags` / `filter_tags`: a sensor's tag string
    is split on whitespace; for each target name, the tokens holding that name
    as a substring are split on '=' and stored as key/value pairs.
    The strict variant (old.py, kpi_report_bandwidth.py) raises ValueError on a
    matching token that does not hold exactly one '='; the tolerant variant
    (main.py, kpi_report_bandwidth_opt.py) records `edge = "True"` instead. */
module Tags {
  import opened Py
  import opened PyStr

  /** The property dictionary built from the tags. */
  type Props = map<string, string>

  const StrictTargets: seq<string> := ["kpi_seg", "kpi_choke", "kpi_cktmaxlimit", "kpi_siteid"]
  const TolerantTargets: seq<string> := ["kpi_seg", "kpi_choke", "kpi_cktmaxlimit", "kpi_siteid", "edge"]

  /** Token `tok`, kept for target `target`, splits into the pair `k`, `v`. */
  predicate Supplies(tok: string, target: string, k: string, v: string) {
    Contains(tok, target) && KeyValue(tok) == Some((k, v))
  }

  /** Token `tok` is kept for target `target` but does not split into two parts. */
  predicate Malformed(tok: string, target: string) {
    Contains(tok, target) && KeyValue(tok).None?
  }

  // ---------------------------------------------------------------------------
  // Strict variant
  // ---------------------------------------------------------------------------

  /** `filter_tags(tokens, target)` of old.py: the tokens are taken in order,
      later tokens overwrite earlier ones with the same key. */
  function FilterStrict(tokens: seq<string>, target: string): Result<Props>
    decreases |tokens|
  {
    if tokens == [] then Ok(map[])
    else
      var prev := FilterStrict(tokens[..|tokens| - 1], target);
      var t := tokens[|tokens| - 1];
      if prev.Err? || !Contains(t, target) then prev
      else
        match KeyValue(t)
        case None => Err(ValueError)
        case Some((k, v)) => Ok(prev.value[k := v])
  }

  /** The loop over the target names in `extract_tags`: each filter's result
      is merged into the properties with `dict.update`. */
  function ExtractStrictFrom(tokens: seq<string>, targets: seq<string>): Result<Props>
    decreases |targets|
  {
    if targets == [] then Ok(map[])
    else
      var prev := ExtractStrictFrom(tokens, targets[..|targets| - 1]);
      if prev.Err? then prev
      else
        match FilterStrict(tokens, targets[|targets| - 1])
        case Err(e) => Err(e)
        case Ok(p) => Ok(prev.value + p)
  }

  /** `extract_tags(sensor)` of old.py and kpi_report_bandwidth.py. */
  function ExtractStrict(tags: string): Result<Props> {
    ExtractStrictFrom(Split(tags), StrictTargets)
  }

  lemma {:induction false} FilterStrictErrSticky(tokens: seq<string>, target: string, i: nat)
    requires i <= |tokens|
    requires FilterStrict(tokens[..i], target).Err?
    ensures FilterStrict(tokens, target) == FilterStrict(tokens[..i], target)
    decreases |tokens| - i
  {
    if i < |tokens| {
      assert tokens[..i + 1][..i] == tokens[..i];
      FilterStrictErrSticky(tokens, target, i + 1);
    } else {
      assert tokens[..i] == tokens;
    }
  }

  lemma {:induction false} ExtractStrictErrSticky(tokens: seq<string>, targets: seq<string>, i: nat)
    requires i <= |targets|
    requires ExtractStrictFrom(tokens, targets[..i]).Err?
    ensures ExtractStrictFrom(tokens, targets) == ExtractStrictFrom(tokens, targets[..i])
    decreases |targets| - i
  {
    if i < |targets| {
      assert targets[..i + 1][..i] == targets[..i];
      ExtractStrictErrSticky(tokens, targets, i + 1);
    } else {
      assert targets[..i] == targets;
    }
  }

  /** The nested `filter_tags` of old.py, as the loop it is. */
  method FilterTagsStrict(tokens: seq<string>, target: string) returns (r: Result<Props>)
    ensures r == FilterStrict(tokens, target)
  {
    var properties: Props := map[];
    var i := 0;
    while i < |tokens|
      invariant 0 <= i <= |tokens|
      invariant FilterStrict(tokens[..i], target) == Ok(properties)
    {
      var t := tokens[i];
      assert tokens[..i + 1][..i] == tokens[..i];
      if Contains(t, target) {
        var kv := KeyValue(t);
        if kv.None? {
          FilterStrictErrSticky(tokens, target, i + 1);
          return Err(ValueError);
        }
        properties := properties[kv.value.0 := kv.value.1];
      }
      i := i + 1;
    }
    assert tokens[..i] == tokens;
    return Ok(properties);
  }

  /** `extract_tags(sensor)` of old.py and kpi_report_bandwidth.py. */
  method ExtractTagsStrict(tags: string) returns (r: Result<Props>)
    ensures r == ExtractStrict(tags)
  {
    var tokens := Split(tags);
    var deviceProperties: Props := map[];
    var i := 0;
    while i < |StrictTargets|
      invariant 0 <= i <= |StrictTargets|
      invariant ExtractStrictFrom(tokens, StrictTargets[..i]) == Ok(deviceProperties)
    {
      assert StrictTargets[..i + 1][..i] == StrictTargets[..i];
      var found := FilterTagsStrict(tokens, StrictTargets[i]);
      if found.Err? {
        ExtractStrictErrSticky(tokens, StrictTargets, i + 1);
        return found;
      }
      deviceProperties := deviceProperties + found.value;
      i := i + 1;
    }
    assert StrictTargets[..i] == StrictTargets;
    return Ok(deviceProperties);
  }

  /** Some kept token supplies the pair `k`, `v` for `target`. */
  predicate SuppliedBy(tokens: seq<string>, target: string, k: string, v: string) {
    exists j :: 0 <= j < |tokens| && Supplies(tokens[j], target, k, v)
  }

  /** Some token supplies the pair `k`, `v` for one of `targets`. */
  predicate SuppliedByAny(tokens: seq<string>, targets: seq<string>, k: string, v: string) {
    exists q :: 0 <= q < |targets| && SuppliedBy(tokens, targets[q], k, v)
  }

  /** Some token kept for `target` is malformed. */
  predicate MalformedIn(tokens: seq<string>, target: string) {
    exists j :: 0 <= j < |tokens| && Malformed(tokens[j], target)
  }

  /** Some token kept for one of `targets` is malformed. */
  predicate MalformedAny(tokens: seq<string>, targets: seq<string>) {
    exists q :: 0 <= q < |targets| && MalformedIn(tokens, targets[q])
  }

  lemma {:induction false} SuppliedBySnoc(tokens: seq<string>, target: string, k: string, v: string)
    requires tokens != []
    ensures SuppliedBy(tokens, target, k, v) <==>
              SuppliedBy(tokens[..|tokens| - 1], target, k, v) || Supplies(tokens[|tokens| - 1], target, k, v)
  {
    var pre := tokens[..|tokens| - 1];
    if SuppliedBy(tokens, target, k, v) {
      var j :| 0 <= j < |tokens| && Supplies(tokens[j], target, k, v);
      if j < |pre| { assert pre[j] == tokens[j]; }
    }
    if SuppliedBy(pre, target, k, v) {
      var j :| 0 <= j < |pre| && Supplies(pre[j], target, k, v);
      assert tokens[j] == pre[j];
    }
  }

  lemma {:induction false} MalformedInSnoc(tokens: seq<string>, target: string)
    requires tokens != []
    ensures MalformedIn(tokens, target) <==>
              MalformedIn(tokens[..|tokens| - 1], target) || Malformed(tokens[|tokens| - 1], target)
  {
    var pre := tokens[..|tokens| - 1];
    if MalformedIn(tokens, target) {
      var j :| 0 <= j < |tokens| && Malformed(tokens[j], target);
      if j < |pre| { assert pre[j] == tokens[j]; }
    }
    if MalformedIn(pre, target) {
      var j :| 0 <= j < |pre| && Malformed(pre[j], target);
      assert tokens[j] == pre[j];
    }
  }

  lemma {:induction false} SuppliedByAnySnoc(tokens: seq<string>, targets: seq<string>, k: string, v: string)
    requires targets != []
    ensures SuppliedByAny(tokens, targets, k, v) <==>
              SuppliedByAny(tokens, targets[..|targets| - 1], k, v) || SuppliedBy(tokens, targets[|targets| - 1], k, v)
  {
    var pre := targets[..|targets| - 1];
    if SuppliedByAny(tokens, targets, k, v) {
      var q :| 0 <= q < |targets| && SuppliedBy(tokens, targets[q], k, v);
      if q < |pre| { assert pre[q] == targets[q]; }
    }
    if SuppliedByAny(tokens, pre, k, v) {
      var q :| 0 <= q < |pre| && SuppliedBy(tokens, pre[q], k, v);
      assert targets[q] == pre[q];
    }
  }

  lemma {:induction false} MalformedAnySnoc(tokens: seq<string>, targets: seq<string>)
    requires targets != []
    ensures MalformedAny(tokens, targets) <==>
              MalformedAny(tokens, targets[..|targets| - 1]) || MalformedIn(tokens, targets[|targets| - 1])
  {
    var pre := targets[..|targets| - 1];
    if MalformedAny(tokens, targets) {
      var q :| 0 <= q < |targets| && MalformedIn(tokens, targets[q]);
      if q < |pre| { assert pre[q] == targets[q]; }
    }
    if MalformedAny(tokens, pre) {
      var q :| 0 <= q < |pre| && MalformedIn(tokens, pre[q]);
      assert targets[q] == pre[q];
    }
  }

  /** Strict filtering fails, with ValueError, exactly when a kept token is malformed. */
  lemma {:induction false} FilterStrictFails(tokens: seq<string>, target: string)
    ensures FilterStrict(tokens, target).Err? <==> MalformedIn(tokens, target)
    ensures FilterStrict(tokens, target).Err? ==> FilterStrict(tokens, target).error == ValueError
    decreases |tokens|
  {
    if tokens != [] {
      FilterStrictFails(tokens[..|tokens| - 1], target);
      MalformedInSnoc(tokens, target);
    }
  }

  /** The strict parser fails, with ValueError, exactly when some token kept for
      some target does not hold exactly one '=' (the tuple unpacking raises). */
  lemma {:induction false} ExtractStrictFails(tokens: seq<string>, targets: seq<string>)
    ensures ExtractStrictFrom(tokens, targets).Err? <==> MalformedAny(tokens, targets)
    ensures ExtractStrictFrom(tokens, targets).Err? ==> ExtractStrictFrom(tokens, targets).error == ValueError
    decreases |targets|
  {
    if targets != [] {
      ExtractStrictFails(tokens, targets[..|targets| - 1]);
      FilterStrictFails(tokens, targets[|targets| - 1]);
      MalformedAnySnoc(tokens, targets);
    }
  }

  /** The keys of a strict filter's result are exactly those split off kept
      tokens, and each value was split off such a token together with its key. */
  lemma {:induction false} FilterStrictKeys(tokens: seq<string>, target: string)
    requires FilterStrict(tokens, target).Ok?
    ensures forall k :: k in FilterStrict(tokens, target).value ==>
              SuppliedBy(tokens, target, k, FilterStrict(tokens, target).value[k])
    ensures forall k, v :: SuppliedBy(tokens, target, k, v) ==> k in FilterStrict(tokens, target).value
    decreases |tokens|
  {
    if tokens != [] {
      var pre := tokens[..|tokens| - 1];
      var t := tokens[|tokens| - 1];
      FilterStrictKeys(pre, target);
      var p := FilterStrict(tokens, target).value;
      var p0 := FilterStrict(pre, target).value;
      forall k | k in p
        ensures SuppliedBy(tokens, target, k, p[k])
      {
        SuppliedBySnoc(tokens, target, k, p[k]);
        if !(Contains(t, target) && KeyValue(t).value.0 == k) {
          assert p[k] == p0[k];
        }
      }
      forall k, v | SuppliedBy(tokens, target, k, v)
        ensures k in p
      {
        SuppliedBySnoc(tokens, target, k, v);
      }
    }
  }

  /** The keys of the strict parser's result are exactly those split off tokens
      kept for some target, each with a value split off together with it. */
  lemma {:induction false} ExtractStrictKeys(tokens: seq<string>, targets: seq<string>)
    requires ExtractStrictFrom(tokens, targets).Ok?
    ensures forall k :: k in ExtractStrictFrom(tokens, targets).value ==>
              SuppliedByAny(tokens, targets, k, ExtractStrictFrom(tokens, targets).value[k])
    ensures forall k, v :: SuppliedByAny(tokens, targets, k, v) ==> k in ExtractStrictFrom(tokens, targets).value
    decreases |targets|
  {
    if targets != [] {
      var pre := targets[..|targets| - 1];
      var last := targets[|targets| - 1];
      ExtractStrictKeys(tokens, pre);
      FilterStrictKeys(tokens, last);
      var m := ExtractStrictFrom(tokens, targets).value;
      forall k | k in m
        ensures SuppliedByAny(tokens, targets, k, m[k])
      {
        SuppliedByAnySnoc(tokens, targets, k, m[k]);
      }
      forall k, v | SuppliedByAny(tokens, targets, k, v)
        ensures k in m
      {
        SuppliedByAnySnoc(tokens, targets, k, v);
      }
    }
  }

  /** Within one filter, the last kept token with a given key decides its value. */
  lemma {:induction false} FilterStrictLastWins(tokens: seq<string>, target: string, j: nat, k: string, v: string)
    requires FilterStrict(tokens, target).Ok?
    requires j < |tokens| && Supplies(tokens[j], target, k, v)
    requires forall j', v' :: j < j' < |tokens| ==> !Supplies(tokens[j'], target, k, v')
    ensures k in FilterStrict(tokens, target).value
    ensures FilterStrict(tokens, target).value[k] == v
    decreases |tokens|
  {
    var t := tokens[|tokens| - 1];
    if j < |tokens| - 1 {
      var pre := tokens[..|tokens| - 1];
      assert pre[j] == tokens[j];
      FilterStrictLastWins(pre, target, j, k, v);
      if Contains(t, target) {
        var kv := KeyValue(t).value;
        assert !Supplies(tokens[|tokens| - 1], target, k, kv.1);
      }
    }
  }

  // ---------------------------------------------------------------------------
  // Tolerant variant
  // ---------------------------------------------------------------------------

  /** `filter_tags(tokens, target)` of main.py and kpi_report_bandwidth_opt.py:
      a kept token that does not split into two parts sets `edge` to "True". */
  function FilterTolerant(tokens: seq<string>, target: string): Props
    decreases |tokens|
  {
    if tokens == [] then map[]
    else
      var prev := FilterTolerant(tokens[..|tokens| - 1], target);
      var t := tokens[|tokens| - 1];
      if !Contains(t, target) then prev
      else
        match KeyValue(t)
        case None => prev["edge" := "True"]
        case Some((k, v)) => prev[k := v]
  }

  function ExtractTolerantFrom(tokens: seq<string>, targets: seq<string>): Props
    decreases |targets|
  {
    if targets == [] then map[]
    else ExtractTolerantFrom(tokens, targets[..|targets| - 1]) + FilterTolerant(tokens, targets[|targets| - 1])
  }

  /** `extract_tags(sensor)` of main.py and kpi_report_bandwidth_opt.py (never raises). */
  function ExtractTolerant(tags: string): Props {
    ExtractTolerantFrom(Split(tags), TolerantTargets)
  }

  /** The nested `filter_tags` of main.py / kpi_report_bandwidth_opt.py. */
  method FilterTagsTolerant(tokens: seq<string>, target: string) returns (properties: Props)
    ensures properties == FilterTolerant(tokens, target)
  {
    properties := map[];
    var i := 0;
    while i < |tokens|
      invariant 0 <= i <= |tokens|
      invariant FilterTolerant(tokens[..i], target) == properties
    {
      var t := tokens[i];
      assert tokens[..i + 1][..i] == tokens[..i];
      if Contains(t, target) {
        var kv := KeyValue(t);
        var key, value;
        if kv.Some? {
          key, value := kv.value.0, kv.value.1;
        } else {
          key, value := "edge", "True";
        }
        properties := properties[key := value];
      }
      i := i + 1;
    }
    assert tokens[..i] == tokens;
  }

  /** `extract_tags(sensor)` of main.py and kpi_report_bandwidth_opt.py. */
  method ExtractTagsTolerant(tags: string) returns (deviceProperties: Props)
    ensures deviceProperties == ExtractTolerant(tags)
  {
    var tokens := Split(tags);
    deviceProperties := map[];
    var i := 0;
    while i < |TolerantTargets|
      invariant 0 <= i <= |TolerantTargets|
      invariant ExtractTolerantFrom(tokens, TolerantTargets[..i]) == deviceProperties
    {
      assert TolerantTargets[..i + 1][..i] == TolerantTargets[..i];
      var found := FilterTagsTolerant(tokens, TolerantTargets[i]);
      deviceProperties := deviceProperties + found;
      i := i + 1;
    }
    assert TolerantTargets[..i] == TolerantTargets;
  }

  /** Every key of a tolerant filter's result comes, with its value, from a kept
      token, or is `edge = "True"` set by a malformed kept token; and every key
      split off a kept token is present. */
  lemma {:induction false} FilterTolerantKeys(tokens: seq<string>, target: string)
    ensures forall k :: k in FilterTolerant(tokens, target) ==>
              SuppliedBy(tokens, target, k, FilterTolerant(tokens, target)[k]) ||
              (k == "edge" && FilterTolerant(tokens, target)[k] == "True" && MalformedIn(tokens, target))
    ensures forall k, v :: SuppliedBy(tokens, target, k, v) ==> k in FilterTolerant(tokens, target)
    ensures MalformedIn(tokens, target) ==> "edge" in FilterTolerant(tokens, target)
    decreases |tokens|
  {
    if tokens != [] {
      var pre := tokens[..|tokens| - 1];
      var t := tokens[|tokens| - 1];
      FilterTolerantKeys(pre, target);
      MalformedInSnoc(tokens, target);
      var p := FilterTolerant(tokens, target);
      var p0 := FilterTolerant(pre, target);
      forall k | k in p
        ensures SuppliedBy(tokens, target, k, p[k]) || (k == "edge" && p[k] == "True" && MalformedIn(tokens, target))
      {
        SuppliedBySnoc(tokens, target, k, p[k]);
        if Contains(t, target) && KeyValue(t).None? && k == "edge" {
          assert p[k] == "True";
          assert Malformed(tokens[|tokens| - 1], target);
        } else if Contains(t, target) && KeyValue(t).Some? && KeyValue(t).value.0 == k {
          assert p[k] == KeyValue(t).value.1;
          assert Supplies(tokens[|tokens| - 1], target, k, p[k]);
        } else {
          assert k in p0 && p[k] == p0[k];
          assert SuppliedBy(pre, target, k, p0[k]) || (k == "edge" && p0[k] == "True" && MalformedIn(pre, target));
        }
      }
      forall k, v | SuppliedBy(tokens, target, k, v)
        ensures k in p
      {
        SuppliedBySnoc(tokens, target, k, v);
      }
    }
  }

  /** The same for the tolerant parser: its keys are those split off tokens kept
      for some target, plus `edge = "True"` exactly when some kept token is
      malformed (or an `edge=...` token supplied it). */
  lemma {:induction false} ExtractTolerantKeys(tokens: seq<string>, targets: seq<string>)
    ensures forall k :: k in ExtractTolerantFrom(tokens, targets) ==>
              SuppliedByAny(tokens, targets, k, ExtractTolerantFrom(tokens, targets)[k]) ||
              (k == "edge" && ExtractTolerantFrom(tokens, targets)[k] == "True" && MalformedAny(tokens, targets))
    ensures forall k, v :: SuppliedByAny(tokens, targets, k, v) ==> k in ExtractTolerantFrom(tokens, targets)
    ensures MalformedAny(tokens, targets) ==> "edge" in ExtractTolerantFrom(tokens, targets)
    decreases |targets|
  {
    if targets != [] {
      var pre := targets[..|targets| - 1];
      var last := targets[|targets| - 1];
      ExtractTolerantKeys(tokens, pre);
      FilterTolerantKeys(tokens, last);
      MalformedAnySnoc(tokens, targets);
      var m := ExtractTolerantFrom(tokens, targets);
      var m0 := ExtractTolerantFrom(tokens, pre);
      var p := FilterTolerant(tokens, last);
      assert m == m0 + p;
      forall k | k in m
        ensures SuppliedByAny(tokens, targets, k, m[k]) || (k == "edge" && m[k] == "True" && MalformedAny(tokens, targets))
      {
        SuppliedByAnySnoc(tokens, targets, k, m[k]);
        if k in p {
          assert m[k] == p[k];
          assert SuppliedBy(tokens, last, k, p[k]) || (k == "edge" && p[k] == "True" && MalformedIn(tokens, last));
        } else {
          assert m[k] == m0[k];
          assert SuppliedByAny(tokens, pre, k, m0[k]) || (k == "edge" && m0[k] == "True" && MalformedAny(tokens, pre));
        }
      }
      forall k, v | SuppliedByAny(tokens, targets, k, v)
        ensures k in m
      {
        SuppliedByAnySnoc(tokens, targets, k, v);
      }
    }
  }

  /** Where the strict parser succeeds, the tolerant one (with the same
      targets) returns the same properties. */
  lemma {:induction false} StrictTolerantAgree(tokens: seq<string>, targets: seq<string>)
    requires ExtractStrictFrom(tokens, targets).Ok?
    ensures ExtractTolerantFrom(tokens, targets) == ExtractStrictFrom(tokens, targets).value
    decreases |targets|
  {
    if targets != [] {
      StrictTolerantAgree(tokens, targets[..|targets| - 1]);
      FilterStrictTolerantAgree(tokens, targets[|targets| - 1]);
    }
  }

  lemma {:induction false} FilterStrictTolerantAgree(tokens: seq<string>, target: string)
    requires FilterStrict(tokens, target).Ok?
    ensures FilterTolerant(tokens, target) == FilterStrict(tokens, target).value
    decreases |tokens|
  {
    if tokens != [] {
      FilterStrictTolerantAgree(tokens[..|tokens| - 1], target);
    }
  }

  // ---------------------------------------------------------------------------
  // Consequences used by the row builders
  // ---------------------------------------------------------------------------

  /** The only token that splits into `kpi_trafficdirection` / `up` matches
      none of the target names of either parser. */
  lemma {:induction false} UpTokenMatchesNoTarget(q: nat)
    requires q < |TolerantTargets|
    ensures !Contains("kpi_trafficdirection=up", TolerantTargets[q])
  {
    var tok := "kpi_trafficdirection=up";
    var t := TolerantTargets[q];
    var c := if q == 0 || q == 4 then 'g' else if q == 1 then 'h' else if q == 2 then 'm' else 's';
    assert c in t;
    assert c !in tok;
    if Contains(tok, t) {
      ContainsChar(tok, t, c);
    }
  }

  lemma {:induction false} NotSuppliedUp(tokens: seq<string>, targets: seq<string>)
    requires forall q :: 0 <= q < |targets| ==> targets[q] in TolerantTargets
    ensures !SuppliedByAny(tokens, targets, "kpi_trafficdirection", "up")
  {
    if SuppliedByAny(tokens, targets, "kpi_trafficdirection", "up") {
      var q :| 0 <= q < |targets| && SuppliedBy(tokens, targets[q], "kpi_trafficdirection", "up");
      var j :| 0 <= j < |tokens| && Supplies(tokens[j], targets[q], "kpi_trafficdirection", "up");
      assert tokens[j] == "kpi_trafficdirection=up";
      var q' :| 0 <= q' < |TolerantTargets| && TolerantTargets[q'] == targets[q];
      UpTokenMatchesNoTarget(q');
    }
  }

  /** `properties.get('kpi_trafficdirection') == 'up'` never holds after the
      strict parser: the outbound branch of the row builders is unreachable. */
  lemma {:induction false} StrictNeverUp(tags: string)
    requires ExtractStrict(tags).Ok?
    ensures var m := ExtractStrict(tags).value;
            !("kpi_trafficdirection" in m && m["kpi_trafficdirection"] == "up")
  {
    ExtractStrictKeys(Split(tags), StrictTargets);
    NotSuppliedUp(Split(tags), StrictTargets);
  }

  /** The same holds for the tolerant parser. */
  lemma {:induction false} TolerantNeverUp(tags: string)
    ensures var m := ExtractTolerant(tags);
            !("kpi_trafficdirection" in m && m["kpi_trafficdirection"] == "up")
  {
    var tokens := Split(tags);
    var m := ExtractTolerantFrom(tokens, TolerantTargets);
    assert m == ExtractTolerant(tags);
    ExtractTolerantKeys(tokens, TolerantTargets);
    NotSuppliedUp(tokens, TolerantTargets);
    var k := "kpi_trafficdirection";
    if k in m {
      assert k != "edge";
      assert SuppliedByAny(tokens, TolerantTargets, k, m[k]);
    }
  }

  /** Each filter's view of the single token `edge`. */
  lemma {:induction false} BareEdgeFilters()
    ensures FilterTolerant(["edge"], "kpi_seg") == map[]
    ensures FilterTolerant(["edge"], "kpi_choke") == map[]
    ensures FilterTolerant(["edge"], "kpi_cktmaxlimit") == map[]
    ensures FilterTolerant(["edge"], "kpi_siteid") == map[]
    ensures FilterTolerant(["edge"], "edge") == map["edge" := "True"]
  {
    var toks: seq<string> := ["edge"];
    assert toks[..0] == [];
    assert KeyValue("edge").None?;
  }

  /** The target loop over the single token `edge`. */
  lemma {:induction false} BareEdgeTargets()
    ensures ExtractTolerantFrom(["edge"], TolerantTargets) == map["edge" := "True"]
  {
    var toks := ["edge"];
    BareEdgeFilters();
    var T := TolerantTargets;
    assert T[..0] == [];
    assert T[..1][..0] == T[..0] && T[..2][..1] == T[..1] && T[..3][..2] == T[..2];
    assert T[..4][..3] == T[..3] && T[..5][..4] == T[..4] && T[..5] == T;
    assert ExtractTolerantFrom(toks, T[..1]) == map[];
    assert ExtractTolerantFrom(toks, T[..2]) == map[];
    assert ExtractTolerantFrom(toks, T[..3]) == map[];
    assert ExtractTolerantFrom(toks, T[..4]) == map[];
  }

  /** A bare `edge` tag yields exactly `{edge: "True"}`. */
  lemma {:induction false} BareEdge()
    ensures ExtractTolerant("edge") == map["edge" := "True"]
  {
    SplitJoinSpace(["edge"]);
    assert Split("edge") == ["edge"];
    BareEdgeTargets();
  }

  lemma {:induction false} DocToken0(t: string)
    requires t == "kpi_bandwidth"
    ensures !Contains(t, "kpi_seg") && !Contains(t, "kpi_choke") && !Contains(t, "kpi_cktmaxlimit") && !Contains(t, "kpi_siteid")
  {
    Lacks(t, "kpi_seg", 's'); Lacks(t, "kpi_choke", 'c'); Lacks(t, "kpi_cktmaxlimit", 'c'); Lacks(t, "kpi_siteid", 's');
  }

  lemma {:induction false} DocToken1(t: string)
    requires t == "kpi_seg=DIA"
    ensures Contains(t, "kpi_seg") && !Contains(t, "kpi_choke") && !Contains(t, "kpi_cktmaxlimit") && !Contains(t, "kpi_siteid")
  {
    assert t[..7] == "kpi_seg";
    Lacks(t, "kpi_choke", 'c'); Lacks(t, "kpi_cktmaxlimit", 'c'); Lacks(t, "kpi_siteid", 't');
  }

  lemma {:induction false} DocToken2(t: string)
    requires t == "kpi_choke=Circuit"
    ensures !Contains(t, "kpi_seg") && Contains(t, "kpi_choke") && !Contains(t, "kpi_cktmaxlimit") && !Contains(t, "kpi_siteid")
  {
    assert t[..9] == "kpi_choke";
    Lacks(t, "kpi_seg", 's'); Lacks(t, "kpi_cktmaxlimit", 'm'); Lacks(t, "kpi_siteid", 's');
  }

  lemma {:induction false} DocToken3(t: string)
    requires t == "kpi_chokelimit=10000"
    ensures !Contains(t, "kpi_seg") && Contains(t, "kpi_choke") && !Contains(t, "kpi_cktmaxlimit") && !Contains(t, "kpi_siteid")
  {
    assert t[..9] == "kpi_choke";
    Lacks(t, "kpi_seg", 's'); Lacks(t, "kpi_cktmaxlimit", 'x'); Lacks(t, "kpi_siteid", 's');
  }

  lemma {:induction false} DocToken4(t: string)
    requires t == "kpi_cktmaxlimit=10000"
    ensures !Contains(t, "kpi_seg") && !Contains(t, "kpi_choke") && Contains(t, "kpi_cktmaxlimit") && !Contains(t, "kpi_siteid")
  {
    assert t[..15] == "kpi_cktmaxlimit";
    Lacks(t, "kpi_seg", 's'); Lacks(t, "kpi_choke", 'h'); Lacks(t, "kpi_siteid", 's');
  }

  lemma {:induction false} DocPair1(t: string)
    requires t == "kpi_seg=DIA"
    ensures KeyValue(t) == Some(("kpi_seg", "DIA"))
  {
    assert t == "kpi_seg" + "=" + "DIA";
    KeyValueOf("kpi_seg", "DIA");
  }

  lemma {:induction false} DocPair2(t: string)
    requires t == "kpi_choke=Circuit"
    ensures KeyValue(t) == Some(("kpi_choke", "Circuit"))
  {
    assert t == "kpi_choke" + "=" + "Circuit";
    KeyValueOf("kpi_choke", "Circuit");
  }

  lemma {:induction false} DocPair3(t: string)
    requires t == "kpi_chokelimit=10000"
    ensures KeyValue(t) == Some(("kpi_chokelimit", "10000"))
  {
    assert t == "kpi_chokelimit" + "=" + "10000";
    KeyValueOf("kpi_chokelimit", "10000");
  }

  lemma {:induction false} DocPair4(t: string)
    requires t == "kpi_cktmaxlimit=10000"
    ensures KeyValue(t) == Some(("kpi_cktmaxlimit", "10000"))
  {
    assert t == "kpi_cktmaxlimit" + "=" + "10000";
    KeyValueOf("kpi_cktmaxlimit", "10000");
  }

  lemma {:induction false} FilterSkip(tokens: seq<string>, t: string, target: string)
    requires !Contains(t, target)
    ensures FilterStrict(tokens + [t], target) == FilterStrict(tokens, target)
  {
    assert (tokens + [t])[..|tokens|] == tokens;
  }

  lemma {:induction false} FilterKeep(tokens: seq<string>, t: string, target: string, k: string, v: string)
    requires Contains(t, target) && KeyValue(t) == Some((k, v)) && FilterStrict(tokens, target).Ok?
    ensures FilterStrict(tokens + [t], target) == Ok(FilterStrict(tokens, target).value[k := v])
  {
    assert (tokens + [t])[..|tokens|] == tokens;
  }

  /** The filters over five tokens kept and split as the documented ones are. */
  lemma {:induction false} DocFilters(t0: string, t1: string, t2: string, t3: string, t4: string)
    requires !Contains(t0, "kpi_seg") && !Contains(t0, "kpi_choke") && !Contains(t0, "kpi_cktmaxlimit") && !Contains(t0, "kpi_siteid")
    requires Contains(t1, "kpi_seg") && !Contains(t1, "kpi_choke") && !Contains(t1, "kpi_cktmaxlimit") && !Contains(t1, "kpi_siteid")
    requires !Contains(t2, "kpi_seg") && Contains(t2, "kpi_choke") && !Contains(t2, "kpi_cktmaxlimit") && !Contains(t2, "kpi_siteid")
    requires !Contains(t3, "kpi_seg") && Contains(t3, "kpi_choke") && !Contains(t3, "kpi_cktmaxlimit") && !Contains(t3, "kpi_siteid")
    requires !Contains(t4, "kpi_seg") && !Contains(t4, "kpi_choke") && Contains(t4, "kpi_cktmaxlimit") && !Contains(t4, "kpi_siteid")
    requires KeyValue(t1) == Some(("kpi_seg", "DIA")) && KeyValue(t2) == Some(("kpi_choke", "Circuit"))
    requires KeyValue(t3) == Some(("kpi_chokelimit", "10000")) && KeyValue(t4) == Some(("kpi_cktmaxlimit", "10000"))
    ensures FilterStrict([t0, t1, t2, t3, t4], "kpi_seg") == Ok(map["kpi_seg" := "DIA"])
    ensures FilterStrict([t0, t1, t2, t3, t4], "kpi_choke") == Ok(map["kpi_choke" := "Circuit", "kpi_chokelimit" := "10000"])
    ensures FilterStrict([t0, t1, t2, t3, t4], "kpi_cktmaxlimit") == Ok(map["kpi_cktmaxlimit" := "10000"])
    ensures FilterStrict([t0, t1, t2, t3, t4], "kpi_siteid") == Ok(map[])
  {
    var P0, P1, P2, P3, P4 := [], [t0], [t0, t1], [t0, t1, t2], [t0, t1, t2, t3];
    assert P0 + [t0] == P1 && P1 + [t1] == P2 && P2 + [t2] == P3 && P3 + [t3] == P4 && P4 + [t4] == [t0, t1, t2, t3, t4];
    FilterSkip(P0, t0, "kpi_seg"); FilterKeep(P1, t1, "kpi_seg", "kpi_seg", "DIA");
    FilterSkip(P2, t2, "kpi_seg"); FilterSkip(P3, t3, "kpi_seg"); FilterSkip(P4, t4, "kpi_seg");
    FilterSkip(P0, t0, "kpi_choke"); FilterSkip(P1, t1, "kpi_choke");
    FilterKeep(P2, t2, "kpi_choke", "kpi_choke", "Circuit"); FilterKeep(P3, t3, "kpi_choke", "kpi_chokelimit", "10000");
    FilterSkip(P4, t4, "kpi_choke");
    FilterSkip(P0, t0, "kpi_cktmaxlimit"); FilterSkip(P1, t1, "kpi_cktmaxlimit");
    FilterSkip(P2, t2, "kpi_cktmaxlimit"); FilterSkip(P3, t3, "kpi_cktmaxlimit");
    FilterKeep(P4, t4, "kpi_cktmaxlimit", "kpi_cktmaxlimit", "10000");
    FilterSkip(P0, t0, "kpi_siteid"); FilterSkip(P1, t1, "kpi_siteid"); FilterSkip(P2, t2, "kpi_siteid");
    FilterSkip(P3, t3, "kpi_siteid"); FilterSkip(P4, t4, "kpi_siteid");
  }

  lemma {:induction false} ExtractFour(toks: seq<string>, targets: seq<string>, p0: Props, p1: Props, p2: Props, p3: Props)
    requires |targets| == 4
    requires FilterStrict(toks, targets[0]) == Ok(p0) && FilterStrict(toks, targets[1]) == Ok(p1)
    requires FilterStrict(toks, targets[2]) == Ok(p2) && FilterStrict(toks, targets[3]) == Ok(p3)
    ensures ExtractStrictFrom(toks, targets) == Ok(p0 + p1 + p2 + p3)
  {
    var T := targets;
    assert T[..1][..0] == [] && T[..2][..1] == T[..1] && T[..3][..2] == T[..2] && T[..4][..3] == T[..3] && T[..4] == T;
    assert ExtractStrictFrom(toks, T[..1]) == Ok(map[] + p0);
    assert map[] + p0 == p0;
    assert ExtractStrictFrom(toks, T[..2]) == Ok(p0 + p1);
    assert ExtractStrictFrom(toks, T[..3]) == Ok(p0 + p1 + p2);
  }

  /** The properties documented for the tag string of `extract_tags`. */
  const DocProps: Props := map["kpi_seg" := "DIA", "kpi_choke" := "Circuit", "kpi_chokelimit" := "10000", "kpi_cktmaxlimit" := "10000"]

  lemma {:induction false} DocMerge(seg: Props, choke: Props, ckt: Props)
    requires seg == map["kpi_seg" := "DIA"]
    requires choke == map["kpi_choke" := "Circuit", "kpi_chokelimit" := "10000"]
    requires ckt == map["kpi_cktmaxlimit" := "10000"]
    ensures seg + choke + ckt + map[] == DocProps
  {
  }

  lemma {:induction false} DocWord(t: string)
    requires t in {"kpi_bandwidth", "kpi_seg=DIA", "kpi_choke=Circuit", "kpi_chokelimit=10000", "kpi_cktmaxlimit=10000"}
    ensures IsWord(t)
  {
  }

  /** The tag string of the `extract_tags` documentation, one token per
      argument: `kpi_choke` also picks up `kpi_chokelimit`, and
      `kpi_bandwidth` matches no target. */
  lemma {:induction false} DocumentedExample(t0: string, t1: string, t2: string, t3: string, t4: string)
    requires t0 == "kpi_bandwidth" && t1 == "kpi_seg=DIA" && t2 == "kpi_choke=Circuit"
    requires t3 == "kpi_chokelimit=10000" && t4 == "kpi_cktmaxlimit=10000"
    ensures ExtractStrict(JoinSpace([t0, t1, t2, t3, t4])) == Ok(DocProps)
  {
    DocToken0(t0);
    DocToken1(t1);
    DocToken2(t2);
    DocToken3(t3);
    DocToken4(t4);
    DocPair1(t1);
    DocPair2(t2);
    DocPair3(t3);
    DocPair4(t4);
    DocFilters(t0, t1, t2, t3, t4);
    DocWord(t0);
    DocWord(t1);
    DocWord(t2);
    DocWord(t3);
    DocWord(t4);
    DocExtract(t0, t1, t2, t3, t4);
  }

  lemma {:induction false} DocExtract(t0: string, t1: string, t2: string, t3: string, t4: string)
    requires IsWord(t0) && IsWord(t1) && IsWord(t2) && IsWord(t3) && IsWord(t4)
    requires FilterStrict([t0, t1, t2, t3, t4], "kpi_seg") == Ok(map["kpi_seg" := "DIA"])
    requires FilterStrict([t0, t1, t2, t3, t4], "kpi_choke") == Ok(map["kpi_choke" := "Circuit", "kpi_chokelimit" := "10000"])
    requires FilterStrict([t0, t1, t2, t3, t4], "kpi_cktmaxlimit") == Ok(map["kpi_cktmaxlimit" := "10000"])
    requires FilterStrict([t0, t1, t2, t3, t4], "kpi_siteid") == Ok(map[])
    ensures ExtractStrict(JoinSpace([t0, t1, t2, t3, t4])) == Ok(DocProps)
  {
    var toks := [t0, t1, t2, t3, t4];
    SplitJoinSpace(toks);
    ExtractFour(toks, StrictTargets, map["kpi_seg" := "DIA"], map["kpi_choke" := "Circuit", "kpi_chokelimit" := "10000"],
                map["kpi_cktmaxlimit" := "10000"], map[]);
    DocMerge(map["kpi_seg" := "DIA"], map["kpi_choke" := "Circuit", "kpi_chokelimit" := "10000"], map["kpi_cktmaxlimit" := "10000"]);
  }
}

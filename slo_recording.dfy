/** The recording-rule half of pkg/slo/slo.go: santizeString, generateRules and
    generateGroupRules. */
module Recording {
  import opened Common
  import opened Floats
  import opened Foreign
  import opened GoMaps
  import opened SloTypes
  import opened PromRules

  // ---------------------------------------------------------------------------
  // santizeString

  /** strings.Replace(name, "-", "_", -1) */
  function SanitizeString(name: string): (r: string)
    ensures |r| == |name|
    ensures forall i :: 0 <= i < |name| ==> r[i] == (if name[i] == '-' then '_' else name[i])
    ensures '-' !in r
    decreases |name|
  {
    if |name| == 0 then ""
    else [if name[0] == '-' then '_' else name[0]] + SanitizeString(name[1..])
  }

  /** Sanitising twice is sanitising once. */
  lemma SanitizeIdempotent(name: string)
    ensures SanitizeString(SanitizeString(name)) == SanitizeString(name)
  {
    var once := SanitizeString(name);
    var twice := SanitizeString(once);
    assert forall i :: 0 <= i < |once| ==> twice[i] == once[i];
  }

  // ---------------------------------------------------------------------------
  // generateRules

  /** The `quantiles` table: name and value of each latency quantile. */
  const Quantiles: seq<(string, Float)> := [("p50", Fin(0.5)), ("p95", Fin(0.95)), ("p99", Fin(0.99))]

  /** Three quantiles with distinct names, strictly between 0 and 1, in increasing order. */
  lemma QuantilesOrdered()
    ensures |Quantiles| == 3
    ensures forall i :: 0 <= i < |Quantiles| ==> Quantiles[i].1.Fin? && 0.0 < Quantiles[i].1.r < 1.0
    ensures forall i, j :: 0 <= i < j < |Quantiles| ==>
      Quantiles[i].0 != Quantiles[j].0 && Quantiles[i].1.Fin? && Quantiles[j].1.Fin? && Quantiles[i].1.r < Quantiles[j].1.r
  {
  }

  /** The Go runtime message of a write into a nil map. */
  const NilMapWrite := "assignment to entry in nil map"

  /** A recording rule: record name, expression and the spec's label map, no annotations. */
  function Record(record: string, expr: string, labels: LabelMap?): Rule {
    Rule(record, "", expr, "", labels, null)
  }

  /** `slo:<sanitised name>:<metric>` */
  function MetricPrefix(slo: Slo, metric: string): string {
    "slo:" + SanitizeString(slo.name) + ":" + metric
  }

  function TrafficRules(bucket: string, slo: Slo): seq<Rule> {
    var block := slo.spec.trafficRateRecord;
    if block.expr != "" then
      [Record(MetricPrefix(slo, "service_traffic:ratio_rate_") + bucket, ComputeExpr(block, bucket, ""), slo.spec.labels)]
    else []
  }

  function ErrorRules(bucket: string, slo: Slo): seq<Rule> {
    var block := slo.spec.errorRateRecord;
    if block.expr != "" then
      [Record(MetricPrefix(slo, "service_errors_total:ratio_rate_") + bucket, ComputeExpr(block, bucket, ""), slo.spec.labels)]
    else []
  }

  function QuantileRule(bucket: string, slo: Slo, q: (string, Float), lib: Lib): Rule {
    Record(MetricPrefix(slo, "service_latency:") + q.0 + "_" + bucket,
           ComputeQuantile(slo.spec.latencyQuantileRecord, bucket, lib.formatG(q.1)), slo.spec.labels)
  }

  function QuantileRules(bucket: string, slo: Slo, lib: Lib): seq<Rule> {
    if slo.spec.latencyQuantileRecord.expr != "" then
      seq(|Quantiles|, i requires 0 <= i < |Quantiles| => QuantileRule(bucket, slo, Quantiles[i], lib))
    else []
  }

  /** The record name does not mention the histogram bucket `le`. */
  function LatencyRule(bucket: string, slo: Slo, le: string): Rule {
    Record(MetricPrefix(slo, "service_latency:ratio_rate_") + bucket,
           ComputeExpr(slo.spec.latencyRecord, bucket, le), slo.spec.labels)
  }

  function LatencyRules(bucket: string, latencyBuckets: seq<string>, slo: Slo): seq<Rule> {
    if slo.spec.latencyRecord.expr != "" then
      seq(|latencyBuckets|, i requires 0 <= i < |latencyBuckets| => LatencyRule(bucket, slo, latencyBuckets[i]))
    else []
  }

  /** The rules generateRules returns for one tier bucket, in order. */
  function BucketRules(bucket: string, latencyBuckets: seq<string>, slo: Slo, lib: Lib): seq<Rule> {
    TrafficRules(bucket, slo) + ErrorRules(bucket, slo) + QuantileRules(bucket, slo, lib)
      + LatencyRules(bucket, latencyBuckets, slo)
  }

  /** How many rules one tier bucket yields. */
  function RulesPerBucket(spec: SloSpec, latencyBuckets: nat): nat {
    (if spec.trafficRateRecord.expr != "" then 1 else 0)
      + (if spec.errorRateRecord.expr != "" then 1 else 0)
      + (if spec.latencyQuantileRecord.expr != "" then 3 else 0)
      + (if spec.latencyRecord.expr != "" then latencyBuckets else 0)
  }

  /** A tier bucket yields RulesPerBucket rules, every one a recording rule that holds
      the spec's one label map and no annotations. */
  lemma {:induction false} BucketRulesShared(bucket: string, latencyBuckets: seq<string>, slo: Slo, lib: Lib)
    ensures var rules := BucketRules(bucket, latencyBuckets, slo, lib);
      && |rules| == RulesPerBucket(slo.spec, |latencyBuckets|)
      && forall k :: 0 <= k < |rules| ==>
           rules[k].labels == slo.spec.labels && rules[k].annotations == null && rules[k].alert == ""
  {
    var head := TrafficRules(bucket, slo) + ErrorRules(bucket, slo);
    var quantiles := QuantileRules(bucket, slo, lib);
    var latency := LatencyRules(bucket, latencyBuckets, slo);
    var rules := head + quantiles + latency;
    forall k | 0 <= k < |rules|
      ensures rules[k].labels == slo.spec.labels && rules[k].annotations == null && rules[k].alert == ""
    {
      if k < |head| {
        assert rules[k] == head[k];
      } else if k < |head| + |quantiles| {
        assert rules[k] == quantiles[k - |head|];
      } else {
        assert rules[k] == latency[k - |head| - |quantiles|];
      }
    }
  }

  /** Traffic first, then errors, then p50, p95 and p99. */
  lemma {:induction false} BucketRulesHead(bucket: string, latencyBuckets: seq<string>, slo: Slo, lib: Lib)
    ensures var rules := BucketRules(bucket, latencyBuckets, slo, lib);
      var t := if slo.spec.trafficRateRecord.expr != "" then 1 else 0;
      var e := t + (if slo.spec.errorRateRecord.expr != "" then 1 else 0);
      && RulesPerBucket(slo.spec, 0) <= |rules|
      && (t == 1 ==> rules[0].record == MetricPrefix(slo, "service_traffic:ratio_rate_") + bucket)
      && (e == t + 1 ==> rules[t].record == MetricPrefix(slo, "service_errors_total:ratio_rate_") + bucket)
      && (forall k :: e <= k < RulesPerBucket(slo.spec, 0) ==> rules[k] == QuantileRule(bucket, slo, Quantiles[k - e], lib))
  {
    var head := TrafficRules(bucket, slo) + ErrorRules(bucket, slo);
    var quantiles := QuantileRules(bucket, slo, lib);
    var rules := head + quantiles + LatencyRules(bucket, latencyBuckets, slo);
    assert |head| + |quantiles| == RulesPerBucket(slo.spec, 0);
    assert rules[..|head|] == head;
    forall k | |head| <= k < |head| + |quantiles|
      ensures rules[k] == quantiles[k - |head|]
    {
    }
  }

  /** Then one latency rule per `le` in declaration order: after the
      RulesPerBucket(spec, 0) rules that do not depend on `le`, rule n + k is the
      latency rule of `le` number k, and all of them share one record name. */
  lemma {:induction false} BucketRulesLatency(bucket: string, latencyBuckets: seq<string>, slo: Slo, lib: Lib)
    ensures var rules := BucketRules(bucket, latencyBuckets, slo, lib);
      var n := RulesPerBucket(slo.spec, 0);
      && n <= |rules|
      && forall k :: n <= k < |rules| ==>
           && rules[k] == LatencyRule(bucket, slo, latencyBuckets[k - n])
           && rules[k].record == MetricPrefix(slo, "service_latency:ratio_rate_") + bucket
  {
    var front := TrafficRules(bucket, slo) + ErrorRules(bucket, slo) + QuantileRules(bucket, slo, lib);
    var latency := LatencyRules(bucket, latencyBuckets, slo);
    assert |front| == RulesPerBucket(slo.spec, 0);
    forall k | |front| <= k < |front| + |latency|
      ensures (front + latency)[k] == latency[k - |front|]
    {
    }
  }

  /** generateRules writes into the spec's label map exactly when the latency
      expression is set and there is at least one latency bucket; a nil map then
      makes the write panic. */
  predicate WritesLe(slo: Slo, latencyBuckets: seq<string>) {
    slo.spec.latencyRecord.expr != "" && |latencyBuckets| > 0
  }

  predicate LePanics(slo: Slo, latencyBuckets: seq<string>) {
    slo.spec.labels == null && WritesLe(slo, latencyBuckets)
  }

  /** The label map after generateRules: its `le` entry is the last latency bucket
      when a latency rule was generated, and the map is untouched otherwise. */
  function LeWritten(entries: map<string, string>, slo: Slo, latencyBuckets: seq<string>): (r: map<string, string>)
    ensures WritesLe(slo, latencyBuckets) ==> "le" in r && r["le"] == Last(latencyBuckets)
    ensures forall k :: k != "le" ==> (k in r <==> k in entries) && (k in r ==> r[k] == entries[k])
    ensures !WritesLe(slo, latencyBuckets) ==> r == entries
  {
    if WritesLe(slo, latencyBuckets) then entries["le" := Last(latencyBuckets)] else entries
  }

  /** Writing the last bucket again leaves the map as it is. */
  lemma LeWrittenTwice(entries: map<string, string>, slo: Slo, latencyBuckets: seq<string>)
    ensures LeWritten(LeWritten(entries, slo, latencyBuckets), slo, latencyBuckets) == LeWritten(entries, slo, latencyBuckets)
  {
  }

  /** The quantile loop of generateRules: p50, p95 and p99 appended in that order. */
  method AppendQuantileRules(rules: seq<Rule>, bucket: string, slo: Slo, lib: Lib) returns (rules': seq<Rule>)
    requires slo.spec.latencyQuantileRecord.expr != ""
    ensures rules' == rules + QuantileRules(bucket, slo, lib)
  {
    rules' := rules;
    for i := 0 to |Quantiles|
      invariant |rules'| == |rules| + i
      invariant rules'[..|rules|] == rules
      invariant forall k :: 0 <= k < i ==> rules'[|rules| + k] == QuantileRule(bucket, slo, Quantiles[k], lib)
    {
      var quantile := Quantiles[i];
      var latencyQuantileRecord := Record(MetricPrefix(slo, "service_latency:") + quantile.0 + "_" + bucket,
        ComputeQuantile(slo.spec.latencyQuantileRecord, bucket, lib.formatG(quantile.1)), slo.spec.labels);
      rules' := rules' + [latencyQuantileRecord];
    }
  }

  /** The latency loop of generateRules: one rule per `le`, each followed by the write
      of its `le` into the shared label map, which panics when that map is nil. */
  method AppendLatencyRules(rules: seq<Rule>, bucket: string, latencyBuckets: seq<string>, slo: Slo)
    returns (r: Result<seq<Rule>>)
    requires slo.spec.latencyRecord.expr != ""
    modifies slo.spec.labels
    ensures r.Fail? <==> LePanics(slo, latencyBuckets)
    ensures r.Fail? ==> r.failure == Panic(NilMapWrite)
    ensures r.Ok? ==> r.value == rules + LatencyRules(bucket, latencyBuckets, slo)
    ensures slo.spec.labels != null ==>
      slo.spec.labels.entries == LeWritten(old(slo.spec.labels.entries), slo, latencyBuckets)
  {
    var labels := slo.spec.labels;
    var out := rules;
    for i := 0 to |latencyBuckets|
      invariant labels == null ==> i == 0
      invariant |out| == |rules| + i
      invariant out[..|rules|] == rules
      invariant forall k :: 0 <= k < i ==> out[|rules| + k] == LatencyRule(bucket, slo, latencyBuckets[k])
      invariant labels != null ==>
        labels.entries == if i == 0 then old(labels.entries) else old(labels.entries)["le" := latencyBuckets[i - 1]]
    {
      var latencyBucket := latencyBuckets[i];
      var latencyRateRecord := Record(MetricPrefix(slo, "service_latency:ratio_rate_") + bucket,
        ComputeExpr(slo.spec.latencyRecord, bucket, latencyBucket), labels);
      if latencyRateRecord.labels == null {
        return Fail(Panic(NilMapWrite));
      }
      latencyRateRecord.labels.Put("le", latencyBucket);
      out := out + [latencyRateRecord];
    }
    r := Ok(out);
  }

  /** generateRules for one tier bucket. Every rule holds the spec's label map itself,
      and the `le` write of each latency rule goes into that shared map. */
  method GenerateRules(bucket: string, latencyBuckets: seq<string>, slo: Slo, lib: Lib) returns (r: Result<seq<Rule>>)
    modifies slo.spec.labels
    ensures r.Fail? <==> LePanics(slo, latencyBuckets)
    ensures r.Fail? ==> r.failure == Panic(NilMapWrite)
    ensures r.Ok? ==> r.value == BucketRules(bucket, latencyBuckets, slo, lib)
    ensures slo.spec.labels != null ==>
      slo.spec.labels.entries == LeWritten(old(slo.spec.labels.entries), slo, latencyBuckets)
  {
    var rules: seq<Rule> := [];
    var spec := slo.spec;
    if spec.trafficRateRecord.expr != "" {
      var trafficRateRecord := Record(MetricPrefix(slo, "service_traffic:ratio_rate_") + bucket,
                                      ComputeExpr(spec.trafficRateRecord, bucket, ""), spec.labels);
      rules := rules + [trafficRateRecord];
    }
    if spec.errorRateRecord.expr != "" {
      var errorRateRecord := Record(MetricPrefix(slo, "service_errors_total:ratio_rate_") + bucket,
                                    ComputeExpr(spec.errorRateRecord, bucket, ""), spec.labels);
      rules := rules + [errorRateRecord];
    }
    if spec.latencyQuantileRecord.expr != "" {
      rules := AppendQuantileRules(rules, bucket, slo, lib);
    }
    assert rules == TrafficRules(bucket, slo) + ErrorRules(bucket, slo) + QuantileRules(bucket, slo, lib);
    if spec.latencyRecord.expr != "" {
      r := AppendLatencyRules(rules, bucket, latencyBuckets, slo);
    } else {
      r := Ok(rules);
    }
  }
}

/** generateGroupRules: one rule group per default tier that yields rules. */
module RuleGroups {
  import opened Common
  import opened Foreign
  import opened GoMaps
  import opened SloTypes
  import opened PromRules
  import opened Recording

  /** The rules of a tier: the rules of each of its buckets, bucket after bucket. */
  function TierRules(buckets: seq<string>, latencyBuckets: seq<string>, slo: Slo, lib: Lib): seq<Rule>
    decreases |buckets|
  {
    if |buckets| == 0 then []
    else TierRules(buckets[..|buckets| - 1], latencyBuckets, slo, lib) + BucketRules(Last(buckets), latencyBuckets, slo, lib)
  }

  /** The group of a tier: `slo:<raw name>:<tier>`, with the tier's interval. The name
      is not sanitised. */
  function TierGroup(sample: Sample, latencyBuckets: seq<string>, slo: Slo, lib: Lib): RuleGroup {
    RuleGroup("slo:" + slo.name + ":" + sample.name, sample.interval, TierRules(sample.buckets, latencyBuckets, slo, lib))
  }

  /** The groups of the tiers that yield at least one rule, in tier order. */
  function KeptGroups(samples: seq<Sample>, latencyBuckets: seq<string>, slo: Slo, lib: Lib): seq<RuleGroup>
    decreases |samples|
  {
    if |samples| == 0 then []
    else
      var group := TierGroup(Last(samples), latencyBuckets, slo, lib);
      KeptGroups(samples[..|samples| - 1], latencyBuckets, slo, lib) + (if |group.rules| > 0 then [group] else [])
  }

  /** What generateGroupRules returns when it does not panic. */
  function GroupsSpec(slo: Slo, lib: Lib): seq<RuleGroup> {
    KeptGroups(DefaultSamples(), slo.spec.latencyRecord.buckets, slo, lib)
  }

  lemma {:induction false} TierRulesLength(buckets: seq<string>, latencyBuckets: seq<string>, slo: Slo, lib: Lib)
    ensures |TierRules(buckets, latencyBuckets, slo, lib)| == |buckets| * RulesPerBucket(slo.spec, |latencyBuckets|)
    decreases |buckets|
  {
    if |buckets| > 0 {
      TierRulesLength(buckets[..|buckets| - 1], latencyBuckets, slo, lib);
      BucketRulesShared(Last(buckets), latencyBuckets, slo, lib);
      var n := RulesPerBucket(slo.spec, |latencyBuckets|);
      assert |buckets| * n == (|buckets| - 1) * n + n;
    }
  }

  /** A tier with buckets yields rules exactly when one bucket does. */
  lemma TierRulesNonEmpty(buckets: seq<string>, latencyBuckets: seq<string>, slo: Slo, lib: Lib)
    requires |buckets| > 0
    ensures |TierRules(buckets, latencyBuckets, slo, lib)| > 0 <==> RulesPerBucket(slo.spec, |latencyBuckets|) > 0
  {
    TierRulesLength(buckets, latencyBuckets, slo, lib);
    var n := RulesPerBucket(slo.spec, |latencyBuckets|);
    assert n > 0 ==> |buckets| * n >= n;
  }

  /** Over tiers that all have buckets, either every tier yields rules or none does. */
  lemma {:induction false} KeptGroupsAll(samples: seq<Sample>, latencyBuckets: seq<string>, slo: Slo, lib: Lib)
    requires forall k :: 0 <= k < |samples| ==> |samples[k].buckets| > 0
    ensures var groups := KeptGroups(samples, latencyBuckets, slo, lib);
      var n := RulesPerBucket(slo.spec, |latencyBuckets|);
      && |groups| == (if n > 0 then |samples| else 0)
      && forall k :: 0 <= k < |groups| ==> groups[k] == TierGroup(samples[k], latencyBuckets, slo, lib)
    decreases |samples|
  {
    if |samples| > 0 {
      var m := |samples| - 1;
      var prefix := samples[..m];
      KeptGroupsAll(prefix, latencyBuckets, slo, lib);
      TierRulesNonEmpty(samples[m].buckets, latencyBuckets, slo, lib);
      var prev := KeptGroups(prefix, latencyBuckets, slo, lib);
      var group := TierGroup(samples[m], latencyBuckets, slo, lib);
      var groups := KeptGroups(samples, latencyBuckets, slo, lib);
      assert groups == prev + (if |group.rules| > 0 then [group] else []);
      if RulesPerBucket(slo.spec, |latencyBuckets|) > 0 {
        assert groups == prev + [group];
        forall k | 0 <= k < |groups|
          ensures groups[k] == TierGroup(samples[k], latencyBuckets, slo, lib)
        {
          if k < m {
            assert prefix[k] == samples[k];
            assert prev[k] == TierGroup(prefix[k], latencyBuckets, slo, lib);
            assert groups[k] == prev[k];
          } else {
            assert groups[k] == group;
          }
        }
      } else {
        assert groups == prev && prev == [];
      }
    }
  }

  /** Over tiers that all have buckets: one group per tier, named after it and with
      its interval and |buckets| * n rules, when a bucket yields n > 0 rules. */
  lemma KeptGroupsShape(samples: seq<Sample>, latencyBuckets: seq<string>, slo: Slo, lib: Lib)
    requires forall k :: 0 <= k < |samples| ==> |samples[k].buckets| > 0
    ensures var groups := KeptGroups(samples, latencyBuckets, slo, lib);
      var n := RulesPerBucket(slo.spec, |latencyBuckets|);
      && |groups| == (if n > 0 then |samples| else 0)
      && forall k :: 0 <= k < |groups| ==>
           && groups[k].name == "slo:" + slo.name + ":" + samples[k].name
           && groups[k].interval == samples[k].interval
           && |groups[k].rules| == |samples[k].buckets| * n
  {
    var groups := KeptGroups(samples, latencyBuckets, slo, lib);
    KeptGroupsAll(samples, latencyBuckets, slo, lib);
    forall k | 0 <= k < |groups|
      ensures |groups[k].rules| == |samples[k].buckets| * RulesPerBucket(slo.spec, |latencyBuckets|)
    {
      TierRulesLength(samples[k].buckets, latencyBuckets, slo, lib);
    }
  }

  /** Every tier has buckets, so either every tier yields rules or none does: there
      are three groups, named after the tiers in order and with their intervals, when
      a bucket yields at least one rule, and no group otherwise (in particular when
      all four expressions are empty). */
  lemma GroupsSpecShape(slo: Slo, lib: Lib)
    ensures var groups := GroupsSpec(slo, lib);
      var n := RulesPerBucket(slo.spec, |slo.spec.latencyRecord.buckets|);
      && |groups| == (if n > 0 then 3 else 0)
      && forall k :: 0 <= k < |groups| ==>
           && groups[k].name == "slo:" + slo.name + ":" + DefaultSamples()[k].name
           && groups[k].interval == DefaultSamples()[k].interval
           && |groups[k].rules| == |DefaultSamples()[k].buckets| * n
  {
    KeptGroupsShape(DefaultSamples(), slo.spec.latencyRecord.buckets, slo, lib);
  }

  /** Every rule is a recording rule that holds the spec's one label map. */
  predicate AllShareLabels(rules: seq<Rule>, slo: Slo) {
    forall r :: r in rules ==> r.labels == slo.spec.labels && r.annotations == null && r.alert == ""
  }

  /** Every rule of a tier is a recording rule holding the spec's one label map. */
  lemma {:induction false} TierShared(buckets: seq<string>, latencyBuckets: seq<string>, slo: Slo, lib: Lib)
    ensures AllShareLabels(TierRules(buckets, latencyBuckets, slo, lib), slo)
    decreases |buckets|
  {
    if |buckets| > 0 {
      var prev := TierRules(buckets[..|buckets| - 1], latencyBuckets, slo, lib);
      var last := BucketRules(Last(buckets), latencyBuckets, slo, lib);
      TierShared(buckets[..|buckets| - 1], latencyBuckets, slo, lib);
      BucketRulesShared(Last(buckets), latencyBuckets, slo, lib);
      assert TierRules(buckets, latencyBuckets, slo, lib) == prev + last;
      forall r: Rule | r in prev + last
        ensures r.labels == slo.spec.labels && r.annotations == null && r.alert == ""
      {
        if r !in prev {
          var k :| 0 <= k < |last| && last[k] == r;
        }
      }
    }
  }

  /** Every rule of every kept group is a recording rule holding the spec's one label map. */
  lemma {:induction false} KeptShared(samples: seq<Sample>, latencyBuckets: seq<string>, slo: Slo, lib: Lib)
    ensures forall g :: g in KeptGroups(samples, latencyBuckets, slo, lib) ==> AllShareLabels(g.rules, slo)
    decreases |samples|
  {
    if |samples| > 0 {
      var prev := KeptGroups(samples[..|samples| - 1], latencyBuckets, slo, lib);
      var group := TierGroup(Last(samples), latencyBuckets, slo, lib);
      KeptShared(samples[..|samples| - 1], latencyBuckets, slo, lib);
      TierShared(Last(samples).buckets, latencyBuckets, slo, lib);
      assert AllShareLabels(group.rules, slo);
      assert KeptGroups(samples, latencyBuckets, slo, lib) == prev + (if |group.rules| > 0 then [group] else []);
    }
  }

  /** Every rule of every recording group holds the spec's one label map: no rule
      gets a copy of its own. */
  lemma GroupsShareLabels(slo: Slo, lib: Lib)
    ensures forall g, r :: g in GroupsSpec(slo, lib) && r in g.rules ==>
      r.labels == slo.spec.labels && r.annotations == null && r.alert == ""
  {
    KeptShared(DefaultSamples(), slo.spec.latencyRecord.buckets, slo, lib);
  }

  /** The bucket loop of generateGroupRules for one tier. */
  method GenerateTierRules(buckets: seq<string>, latencyBuckets: seq<string>, slo: Slo, lib: Lib)
    returns (r: Result<seq<Rule>>)
    modifies slo.spec.labels
    ensures r.Fail? <==> |buckets| > 0 && LePanics(slo, latencyBuckets)
    ensures r.Fail? ==> r.failure == Panic(NilMapWrite)
    ensures r.Ok? ==> r.value == TierRules(buckets, latencyBuckets, slo, lib)
    ensures slo.spec.labels != null ==>
      slo.spec.labels.entries == (if |buckets| > 0 then LeWritten(old(slo.spec.labels.entries), slo, latencyBuckets) else old(slo.spec.labels.entries))
  {
    var labels := slo.spec.labels;
    var rules: seq<Rule> := [];
    for b := 0 to |buckets|
      invariant rules == TierRules(buckets[..b], latencyBuckets, slo, lib)
      invariant LePanics(slo, latencyBuckets) ==> b == 0
      invariant labels != null ==>
        labels.entries == (if b > 0 then LeWritten(old(labels.entries), slo, latencyBuckets) else old(labels.entries))
    {
      var more := GenerateRules(buckets[b], latencyBuckets, slo, lib);
      if more.Fail? {
        return Fail(more.failure);
      }
      if labels != null && b > 0 {
        LeWrittenTwice(old(labels.entries), slo, latencyBuckets);
      }
      assert buckets[..b + 1][..b] == buckets[..b];
      rules := rules + more.value;
    }
    assert buckets[..|buckets|] == buckets;
    r := Ok(rules);
  }

  /** The tier loop of generateGroupRules, over tiers that all have buckets. */
  method GenerateTierGroups(samples: seq<Sample>, latencyBuckets: seq<string>, slo: Slo, lib: Lib)
    returns (r: Result<seq<RuleGroup>>)
    requires forall k :: 0 <= k < |samples| ==> |samples[k].buckets| > 0
    modifies slo.spec.labels
    ensures r.Fail? <==> |samples| > 0 && LePanics(slo, latencyBuckets)
    ensures r.Fail? ==> r.failure == Panic(NilMapWrite)
    ensures r.Ok? ==> r.value == KeptGroups(samples, latencyBuckets, slo, lib)
    ensures slo.spec.labels != null ==>
      slo.spec.labels.entries == (if |samples| > 0 then LeWritten(old(slo.spec.labels.entries), slo, latencyBuckets)
                                  else old(slo.spec.labels.entries))
  {
    var labels := slo.spec.labels;
    var rules: seq<RuleGroup> := [];
    for s := 0 to |samples|
      invariant rules == KeptGroups(samples[..s], latencyBuckets, slo, lib)
      invariant LePanics(slo, latencyBuckets) ==> s == 0
      invariant labels != null ==>
        labels.entries == (if s > 0 then LeWritten(old(labels.entries), slo, latencyBuckets) else old(labels.entries))
    {
      var sample := samples[s];
      var tierRules := GenerateTierRules(sample.buckets, latencyBuckets, slo, lib);
      if tierRules.Fail? {
        return Fail(tierRules.failure);
      }
      if labels != null && s > 0 {
        LeWrittenTwice(old(labels.entries), slo, latencyBuckets);
      }
      var ruleGroup := RuleGroup("slo:" + slo.name + ":" + sample.name, sample.interval, tierRules.value);
      assert samples[..s + 1][..s] == samples[..s];
      if |ruleGroup.rules| > 0 {
        rules := rules + [ruleGroup];
      }
    }
    assert samples[..|samples|] == samples;
    r := Ok(rules);
  }

  /** generateGroupRules: the latency buckets are copied, then each default tier in
      turn yields a group that is kept when it has rules. Every rule of every group
      holds the spec's label map (GroupsShareLabels), whose `le` entry ends as the last
      latency bucket. */
  method GenerateGroupRules(slo: Slo, lib: Lib) returns (r: Result<seq<RuleGroup>>)
    modifies slo.spec.labels
    ensures r.Fail? <==> LePanics(slo, slo.spec.latencyRecord.buckets)
    ensures r.Fail? ==> r.failure == Panic(NilMapWrite)
    ensures r.Ok? ==> r.value == GroupsSpec(slo, lib)
    ensures slo.spec.labels != null ==>
      slo.spec.labels.entries == LeWritten(old(slo.spec.labels.entries), slo, slo.spec.latencyRecord.buckets)
  {
    var latencyBuckets: seq<string> := [];
    if |slo.spec.latencyRecord.buckets| > 0 {
      for i := 0 to |slo.spec.latencyRecord.buckets|
        invariant latencyBuckets == slo.spec.latencyRecord.buckets[..i]
      {
        latencyBuckets := latencyBuckets + [slo.spec.latencyRecord.buckets[i]];
      }
    }
    assert latencyBuckets == slo.spec.latencyRecord.buckets;
    r := GenerateTierGroups(DefaultSamples(), latencyBuckets, slo, lib);
  }
}

/** The custom resource types of api/v1alpha1 and the helpers the engine calls on them:
    the default sample tiers, the short-window flag and the expression templater. */
module SloTypes {
  import opened Common
  import opened GoMaps

  /** A declared consumption window, all fields still unparsed text. */
  datatype Window = Window(duration: string, consumption: string, notification: string)

  /** One expression block; `shortWindow` is the optional `*bool`. */
  datatype ExprBlock = ExprBlock(
    alertMethod: string,
    burnRate: string,
    windows: seq<Window>,
    shortWindow: Option<bool>,
    buckets: seq<string>,
    expr: string)

  datatype LatencyTarget = LatencyTarget(le: string, target: string)

  /** `latency` is a Go slice, which may be nil (`None`) or present but empty. */
  datatype Objectives = Objectives(availability: string, latency: Option<seq<LatencyTarget>>, window: string)

  /** `labels` is the spec's label map; it may be nil. */
  datatype SloSpec = SloSpec(
    objectives: Objectives,
    trafficRateRecord: ExprBlock,
    errorRateRecord: ExprBlock,
    latencyRecord: ExprBlock,
    latencyQuantileRecord: ExprBlock,
    labels: LabelMap?,
    annotations: map<string, string>)

  /** The Slo object: name, namespace and labels of its metadata, and its spec. */
  datatype Slo = Slo(name: string, namespace: string, labels: map<string, string>, spec: SloSpec)

  /** An aggregation tier. */
  datatype Sample = Sample(name: string, interval: string, buckets: seq<string>)

  predicate Distinct<T(==)>(s: seq<T>) {
    forall i, j :: 0 <= i < j < |s| ==> s[i] != s[j]
  }

  /** The three built-in tiers, evaluated in this order. */
  function DefaultSamples(): (tiers: seq<Sample>)
    ensures |tiers| == 3
    ensures Distinct(seq(3, i requires 0 <= i < 3 => tiers[i].name))
    ensures forall i :: 0 <= i < 3 ==> |tiers[i].buckets| > 0 && Distinct(tiers[i].buckets)
  {
    [ Sample("short", "30s", ["5m", "30m", "1h"]),
      Sample("medium", "2m", ["2h", "6h"]),
      Sample("daily", "5m", ["1d", "3d"]) ]
  }

  /** Short windows are on unless the block explicitly sets the flag to false. */
  function GetShortWindow(block: ExprBlock): (on: bool)
    ensures !on <==> block.shortWindow == Some(false)
  {
    match block.shortWindow
    case None => true
    case Some(b) => b
  }

  // ---------------------------------------------------------------------------
  // strings.NewReplacer(old1, new1, old2, new2).Replace(s)

  /** `key` is a non-empty prefix of `s`. */
  predicate Matches(s: string, key: string) {
    0 < |key| <= |s| && s[..|key|] == key
  }

  /** The index of the first pair, in argument order, whose key starts `s`. */
  function MatchAt(s: string, pairs: seq<(string, string)>): (m: Option<nat>)
    ensures m.Some? ==> m.value < |pairs| && Matches(s, pairs[m.value].0)
    ensures m.Some? ==> forall j :: 0 <= j < m.value ==> !Matches(s, pairs[j].0)
    ensures m.None? ==> forall j :: 0 <= j < |pairs| ==> !Matches(s, pairs[j].0)
  {
    if pairs == [] then None
    else if Matches(s, pairs[0].0) then Some(0)
    else match MatchAt(s, pairs[1..])
      case None => None
      case Some(k) => Some(k + 1)
  }

  /** One left-to-right pass: at each position the first matching key is replaced and
      the scan resumes after it; replacement text is never rescanned. */
  function Replace(s: string, pairs: seq<(string, string)>): (r: string)
    ensures (forall i :: 0 <= i < |pairs| ==> |pairs[i].1| == |pairs[i].0|) ==> |r| == |s|
    ensures (forall i :: 0 <= i < |pairs| ==> pairs[i].1 == pairs[i].0) ==> r == s
    decreases |s|
  {
    if s == [] then []
    else match MatchAt(s, pairs)
      case Some(i) =>
        assert s == s[..|pairs[i].0|] + s[|pairs[i].0|..];
        pairs[i].1 + Replace(s[|pairs[i].0|..], pairs)
      case None =>
        assert s == [s[0]] + s[1..];
        [s[0]] + Replace(s[1..], pairs)
  }

  /** Some key occurs somewhere in `s`. */
  ghost predicate ContainsKey(s: string, pairs: seq<(string, string)>) {
    exists i, j :: 0 <= i < |pairs| && 0 <= j <= |s| && Matches(s[j..], pairs[i].0)
  }

  /** A text in which no key occurs comes back unchanged. */
  lemma {:induction false} ReplaceWithoutKeys(s: string, pairs: seq<(string, string)>)
    requires !ContainsKey(s, pairs)
    ensures Replace(s, pairs) == s
    decreases |s|
  {
    if s != [] {
      assert s[0..] == s;
      assert !ContainsKey(s[1..], pairs) by {
        forall i, j | 0 <= i < |pairs| && 0 <= j <= |s[1..]|
          ensures !Matches(s[1..][j..], pairs[i].0)
        {
          assert s[1..][j..] == s[j + 1..];
        }
      }
      ReplaceWithoutKeys(s[1..], pairs);
    }
  }

  /** A key at the start is replaced by its value, which is not scanned again. */
  lemma ReplaceLeadingKey(i: nat, rest: string, pairs: seq<(string, string)>)
    requires i < |pairs| && |pairs[i].0| > 0
    requires forall j :: 0 <= j < i ==> !Matches(pairs[i].0 + rest, pairs[j].0)
    ensures Replace(pairs[i].0 + rest, pairs) == pairs[i].1 + Replace(rest, pairs)
  {
  }

  /** Text before the first key is copied verbatim. */
  lemma ReplaceLeadingChar(c: char, rest: string, pairs: seq<(string, string)>)
    requires MatchAt([c] + rest, pairs).None?
    ensures Replace([c] + rest, pairs) == [c] + Replace(rest, pairs)
  {
  }

  const WindowToken := "$window"
  const LeToken := "$le"
  const QuantileToken := "$quantile"

  function ExprPairs(window: string, le: string): seq<(string, string)> {
    [(WindowToken, window), (LeToken, le)]
  }

  function QuantilePairs(window: string, quantile: string): seq<(string, string)> {
    [(WindowToken, window), (QuantileToken, quantile)]
  }

  /** ExprBlock.ComputeExpr */
  function ComputeExpr(block: ExprBlock, window: string, le: string): (r: string)
    ensures |window| == |WindowToken| && |le| == |LeToken| ==> |r| == |block.expr|
    ensures window == WindowToken && le == LeToken ==> r == block.expr
  {
    Replace(block.expr, ExprPairs(window, le))
  }

  /** ExprBlock.ComputeQuantile: `quantile` is the value already rendered with %g. */
  function ComputeQuantile(block: ExprBlock, window: string, quantile: string): (r: string)
    ensures |window| == |WindowToken| && |quantile| == |QuantileToken| ==> |r| == |block.expr|
    ensures window == WindowToken && quantile == QuantileToken ==> r == block.expr
  {
    Replace(block.expr, QuantilePairs(window, quantile))
  }
}

/** Properties of the templater as the recording rules use it. */
module Templating {
  import opened Common
  import opened SloTypes

  ghost predicate Occurs(s: string, key: string) {
    exists j :: 0 <= j <= |s| && Matches(s[j..], key)
  }

  /** A template without `$window` and `$le` comes back from ComputeExpr unchanged;
      any other token, `$quantile` included, is kept as written. */
  lemma ComputeExprWithoutTokens(block: ExprBlock, window: string, le: string)
    requires !Occurs(block.expr, WindowToken) && !Occurs(block.expr, LeToken)
    ensures ComputeExpr(block, window, le) == block.expr
  {
    var pairs := ExprPairs(window, le);
    assert !ContainsKey(block.expr, pairs) by {
      forall i, j | 0 <= i < |pairs| && 0 <= j <= |block.expr|
        ensures !Matches(block.expr[j..], pairs[i].0)
      {
        if i == 0 {
          assert !Matches(block.expr[j..], WindowToken);
        } else {
          assert !Matches(block.expr[j..], LeToken);
        }
      }
    }
    ReplaceWithoutKeys(block.expr, pairs);
  }

  lemma MismatchAt(s: string, key: string, k: nat)
    requires k < |key| && k < |s| && s[k] != key[k]
    ensures !Matches(s, key)
  {
  }

  /** `$window` is replaced by the window, and the inserted text is not rescanned. */
  lemma ComputeExprWindow(rest: string, window: string, le: string)
    ensures Replace(WindowToken + rest, ExprPairs(window, le)) == window + Replace(rest, ExprPairs(window, le))
  {
    ReplaceLeadingKey(0, rest, ExprPairs(window, le));
  }

  /** `$le` is replaced by the bucket boundary, and the inserted text is not rescanned. */
  lemma ComputeExprLe(rest: string, window: string, le: string)
    ensures Replace(LeToken + rest, ExprPairs(window, le)) == le + Replace(rest, ExprPairs(window, le))
  {
    var s := LeToken + rest;
    assert s[1] == 'l';
    ReplaceLeadingKey(1, rest, ExprPairs(window, le));
  }

  /** Single pass: a window value that itself spells `$le` is left as it is. */
  lemma ComputeExprNoRescan(le: string)
    ensures ComputeExpr(ExprBlock("", "", [], None, [], WindowToken), LeToken, le) == LeToken
  {
    ComputeExprWindow([], LeToken, le);
    assert WindowToken + [] == WindowToken;
  }

  /** `$quantile` is replaced by the rendered quantile. */
  lemma ComputeQuantileQuantile(rest: string, window: string, quantile: string)
    ensures Replace(QuantileToken + rest, QuantilePairs(window, quantile))
         == quantile + Replace(rest, QuantilePairs(window, quantile))
  {
    var s := QuantileToken + rest;
    assert s[1] == 'q';
    ReplaceLeadingKey(1, rest, QuantilePairs(window, quantile));
  }

  /** A character where neither `$window` nor `$quantile` starts is copied. */
  lemma QuantileKeepsChar(c: char, rest: string, window: string, quantile: string)
    requires !Matches([c] + rest, WindowToken) && !Matches([c] + rest, QuantileToken)
    ensures Replace([c] + rest, QuantilePairs(window, quantile))
         == [c] + Replace(rest, QuantilePairs(window, quantile))
  {
    ReplaceLeadingChar(c, rest, QuantilePairs(window, quantile));
  }

  /** ComputeQuantile leaves `$le` untouched. */
  lemma ComputeQuantileKeepsLe(rest: string, window: string, quantile: string)
    ensures Replace(LeToken + rest, QuantilePairs(window, quantile))
         == LeToken + Replace(rest, QuantilePairs(window, quantile))
  {
    var s2 := ['e'] + rest;
    var s1 := ['l'] + s2;
    assert LeToken + rest == ['$'] + s1;
    MismatchAt(['$'] + s1, WindowToken, 1);
    MismatchAt(['$'] + s1, QuantileToken, 1);
    MismatchAt(s1, WindowToken, 0);
    MismatchAt(s1, QuantileToken, 0);
    MismatchAt(s2, WindowToken, 0);
    MismatchAt(s2, QuantileToken, 0);
    QuantileKeepsChar('$', s1, window, quantile);
    QuantileKeepsChar('l', s2, window, quantile);
    QuantileKeepsChar('e', rest, window, quantile);
  }
}

/** The multi-window, multi-burn-rate alert method (pkg/slo/slo_muti-window.go):
    burn-rate windows per severity, the alert conditions built from them, and the
    error and latency alerts of one SLO. */
module MultiWindow {
  import opened Common
  import opened Floats
  import opened Foreign
  import opened GoMaps
  import opened PromRules
  import opened Alerts

  /** `shortWindow` is the empty string when the window has no short window. */
  datatype MultiRateWindow = MultiRateWindow(multiplier: Float, longWindow: string, shortWindow: string)

  /** Burn-rate windows per notification name. */
  type RateTable = map<string, seq<MultiRateWindow>>

  /** The built-in table, used when a block declares no windows: two windows per
      severity, the longer and less urgent one second. */
  function DefaultRateWindows(): (table: RateTable)
    ensures table.Keys == {"page", "ticket"}
    ensures |table["page"]| == 2 && |table["ticket"]| == 2
    ensures table["page"][0] == MultiRateWindow(Fin(14.4), "1h", "5m")
    ensures table["page"][1] == MultiRateWindow(Fin(6.0), "6h", "30m")
    ensures table["ticket"][0] == MultiRateWindow(Fin(3.0), "1d", "2h")
    ensures table["ticket"][1] == MultiRateWindow(Fin(1.0), "3d", "6h")
    ensures forall sev, k :: sev in table && 0 <= k < |table[sev]| ==>
      table[sev][k].multiplier.Fin? && table[sev][k].multiplier.r >= 1.0 && table[sev][k].shortWindow != ""
  {
    map[
      "page" := [MultiRateWindow(Fin(14.4), "1h", "5m"), MultiRateWindow(Fin(6.0), "6h", "30m")],
      "ticket" := [MultiRateWindow(Fin(3.0), "1d", "2h"), MultiRateWindow(Fin(1.0), "3d", "6h")]
    ]
  }

  /** time.Hour in nanoseconds. */
  const Hour: nat := 3_600_000_000_000

  /** Go's integer division, which truncates toward zero. */
  function TruncDiv(a: int, b: nat): int
    requires b > 0
  {
    if a >= 0 then a / b else -((-a) / b)
  }

  /** `(consumption / 100) / (t / wHours)` in float64, where `t` and `wHours` are the
      window and the SLO window truncated to whole hours. */
  function BurnRateMultiplier(consumption: Float, duration: nat, sloWindow: int): (m: Float)
    ensures var t, w := duration / Hour, TruncDiv(sloWindow, Hour);
      consumption.Fin? && t > 0 && w != 0 ==>
        m == Fin((consumption.r / 100.0) / (t as real / w as real))
    ensures var t, w := duration / Hour, TruncDiv(sloWindow, Hour);
      consumption.Fin? && consumption.r > 0.0 && t > 0 && w > 0 ==> m.Fin? && m.r > 0.0
  {
    Div(Div(consumption, Fin(100.0)), Div(FromInt(duration / Hour), FromInt(TruncDiv(sloWindow, Hour))))
  }

  /** The burn-rate window derived from one declared window. */
  function DeriveWindow(w: Window, sloWindow: int, shortWindow: bool, lib: Lib): (m: MultiRateWindow)
    ensures m.multiplier == BurnRateMultiplier(w.consumption, w.duration, sloWindow)
    ensures m.longWindow == lib.durationString(w.duration)
    ensures shortWindow ==> m.shortWindow == lib.durationString(w.duration / 12)
    ensures !shortWindow ==> m.shortWindow == ""
    ensures DurationsRenderNonEmpty(lib) ==> (m.shortWindow != "" <==> shortWindow)
  {
    MultiRateWindow(
      BurnRateMultiplier(w.consumption, w.duration, sloWindow),
      lib.durationString(w.duration),
      if shortWindow then lib.durationString(w.duration / 12) else "")
  }

  /** The derived windows grouped by notification name, in declaration order. */
  function Grouped(ws: seq<Window>, sloWindow: int, shortWindow: bool, lib: Lib): RateTable
    decreases |ws|
  {
    if ws == [] then map[]
    else
      var table := Grouped(ws[..|ws| - 1], sloWindow, shortWindow, lib);
      var w := Last(ws);
      var before := if w.notification in table then table[w.notification] else [];
      table[w.notification := before + [DeriveWindow(w, sloWindow, shortWindow, lib)]]
  }

  /** The windows genMultiRateWindows returns. */
  function RateWindows(sloWindow: int, shortWindow: bool, ws: seq<Window>, lib: Lib): RateTable {
    if |ws| == 0 then DefaultRateWindows() else Grouped(ws, sloWindow, shortWindow, lib)
  }

  method GenMultiRateWindows(sloWindow: int, shortWindow: bool, windows: seq<Window>, lib: Lib)
    returns (table: RateTable)
    ensures table == RateWindows(sloWindow, shortWindow, windows, lib)
  {
    if |windows| == 0 {
      return DefaultRateWindows();
    }
    var mrate: RateTable := map[];
    var wHours := FromInt(TruncDiv(sloWindow, Hour));
    var i := 0;
    while i < |windows|
      invariant 0 <= i <= |windows|
      invariant mrate == Grouped(windows[..i], sloWindow, shortWindow, lib)
    {
      var w := windows[i];
      var t := FromInt(w.duration / Hour);
      var burnRate := Div(Div(w.consumption, Fin(100.0)), Div(t, wHours));
      var m := MultiRateWindow(burnRate, lib.durationString(w.duration), "");
      if shortWindow {
        var short := w.duration / 12;
        m := m.(shortWindow := lib.durationString(short));
      }
      var before := if w.notification in mrate then mrate[w.notification] else [];
      mrate := mrate[w.notification := before + [m]];
      assert windows[..i + 1][..i] == windows[..i];
      i := i + 1;
    }
    assert windows[..i] == windows;
    table := mrate;
  }

  // ---------------------------------------------------------------------------
  // Properties of the derived table

  function Notifications(ws: seq<Window>): set<string> {
    set w | w in ws :: w.notification
  }

  /** The declared windows of one notification name, in declaration order. */
  function ForNotification(ws: seq<Window>, name: string): (r: seq<Window>)
    ensures forall w :: w in r ==> w in ws && w.notification == name
    decreases |ws|
  {
    if ws == [] then []
    else ForNotification(ws[..|ws| - 1], name) + (if Last(ws).notification == name then [Last(ws)] else [])
  }

  function DeriveAll(ws: seq<Window>, sloWindow: int, shortWindow: bool, lib: Lib): (r: seq<MultiRateWindow>)
    ensures |r| == |ws|
    ensures forall i :: 0 <= i < |ws| ==> r[i] == DeriveWindow(ws[i], sloWindow, shortWindow, lib)
  {
    seq(|ws|, i requires 0 <= i < |ws| => DeriveWindow(ws[i], sloWindow, shortWindow, lib))
  }

  /** The keys of the derived table are exactly the notification names that occur. */
  lemma {:induction false} GroupedKeys(ws: seq<Window>, sloWindow: int, shortWindow: bool, lib: Lib)
    ensures Grouped(ws, sloWindow, shortWindow, lib).Keys == Notifications(ws)
    decreases |ws|
  {
    if ws != [] {
      var init := ws[..|ws| - 1];
      GroupedKeys(init, sloWindow, shortWindow, lib);
      assert ws == init + [Last(ws)];
      assert Notifications(ws) == Notifications(init) + {Last(ws).notification};
    }
  }

  /** Each declared window adds one entry under its notification name, in declaration order. */
  lemma {:induction false} GroupedEntries(ws: seq<Window>, sloWindow: int, shortWindow: bool, lib: Lib, name: string)
    requires name in Grouped(ws, sloWindow, shortWindow, lib)
    ensures Grouped(ws, sloWindow, shortWindow, lib)[name]
         == DeriveAll(ForNotification(ws, name), sloWindow, shortWindow, lib)
    decreases |ws|
  {
    var init := ws[..|ws| - 1];
    var w := Last(ws);
    var table := Grouped(init, sloWindow, shortWindow, lib);
    var d := DeriveWindow(w, sloWindow, shortWindow, lib);
    if name in table {
      GroupedEntries(init, sloWindow, shortWindow, lib, name);
    } else {
      GroupedKeys(init, sloWindow, shortWindow, lib);
      ForNotificationAbsent(init, name);
    }
    var prev := ForNotification(init, name);
    if w.notification == name {
      assert DeriveAll(prev + [w], sloWindow, shortWindow, lib)
          == DeriveAll(prev, sloWindow, shortWindow, lib) + [d];
    }
  }

  lemma {:induction false} ForNotificationAbsent(ws: seq<Window>, name: string)
    requires name !in Notifications(ws)
    ensures ForNotification(ws, name) == []
    decreases |ws|
  {
    if ws != [] {
      assert Last(ws) in ws;
      assert name !in Notifications(ws[..|ws| - 1]) by {
        forall w | w in ws[..|ws| - 1] ensures w.notification != name {
          assert w in ws;
        }
      }
      ForNotificationAbsent(ws[..|ws| - 1], name);
    }
  }

  /** Total number of windows of the names in `names`. */
  function CountFor(ws: seq<Window>, names: seq<string>): nat
    decreases |names|
  {
    if names == [] then 0 else |ForNotification(ws, names[0])| + CountFor(ws, names[1..])
  }

  function Occurrences(names: seq<string>, name: string): nat
    decreases |names|
  {
    if names == [] then 0 else (if names[0] == name then 1 else 0) + Occurrences(names[1..], name)
  }

  lemma {:induction false} CountForStep(ws: seq<Window>, w: Window, names: seq<string>)
    ensures CountFor(ws + [w], names) == CountFor(ws, names) + Occurrences(names, w.notification)
    decreases |names|
  {
    if names != [] {
      assert (ws + [w])[..|ws + [w]| - 1] == ws;
      CountForStep(ws, w, names[1..]);
    }
  }

  lemma {:induction false} OccursOnce(names: seq<string>, name: string)
    requires DistinctNames(names) && name in names
    ensures Occurrences(names, name) == 1
    decreases |names|
  {
    if names[0] != name {
      OccursOnce(names[1..], name);
    } else {
      OccursNever(names[1..], name);
    }
  }

  lemma {:induction false} OccursNever(names: seq<string>, name: string)
    requires name !in names
    ensures Occurrences(names, name) == 0
    decreases |names|
  {
    if names != [] {
      OccursNever(names[1..], name);
    }
  }

  predicate DistinctNames(names: seq<string>) {
    forall i, j :: 0 <= i < j < |names| ==> names[i] != names[j]
  }

  /** Over any list of distinct names covering every notification, the per-name
      entry counts add up to the number of declared windows. */
  lemma {:induction false} EntriesTotal(ws: seq<Window>, names: seq<string>)
    requires DistinctNames(names)
    requires forall w :: w in ws ==> w.notification in names
    ensures CountFor(ws, names) == |ws|
    decreases |ws|
  {
    if ws == [] {
      EmptyCount(names);
    } else {
      var init := ws[..|ws| - 1];
      assert ws == init + [Last(ws)];
      EntriesTotal(init, names);
      CountForStep(init, Last(ws), names);
      OccursOnce(names, Last(ws).notification);
    }
  }

  lemma {:induction false} EmptyCount(names: seq<string>)
    ensures CountFor([], names) == 0
    decreases |names|
  {
    if names != [] {
      EmptyCount(names[1..]);
    }
  }

  /** The default table is used exactly when no window is declared; otherwise the
      table has one key per notification name, each holding its declared windows
      in order, and as many entries in all as windows were declared. */
  lemma RateWindowsChoice(sloWindow: int, shortWindow: bool, ws: seq<Window>, lib: Lib, names: seq<string>)
    requires DistinctNames(names) && forall w :: w in ws ==> w.notification in names
    ensures |ws| == 0 ==> RateWindows(sloWindow, shortWindow, ws, lib) == DefaultRateWindows()
    ensures |ws| > 0 ==> RateWindows(sloWindow, shortWindow, ws, lib).Keys == Notifications(ws)
    ensures |ws| > 0 ==> forall name :: name in Notifications(ws) ==>
      RateWindows(sloWindow, shortWindow, ws, lib)[name]
        == DeriveAll(ForNotification(ws, name), sloWindow, shortWindow, lib)
    ensures CountFor(ws, names) == |ws|
  {
    GroupedKeys(ws, sloWindow, shortWindow, lib);
    forall name | |ws| > 0 && name in Notifications(ws)
      ensures RateWindows(sloWindow, shortWindow, ws, lib)[name]
        == DeriveAll(ForNotification(ws, name), sloWindow, shortWindow, lib)
    {
      GroupedEntries(ws, sloWindow, shortWindow, lib, name);
    }
    EntriesTotal(ws, names);
  }

  // ---------------------------------------------------------------------------
  // Alert conditions

  datatype MultiRateErrorOpts = MultiRateErrorOpts(
    rates: seq<MultiRateWindow>, metric: string, labels: seq<(string, string)>, value: Float)

  datatype MultiRateLatencyOpts = MultiRateLatencyOpts(
    rates: seq<MultiRateWindow>, metric: string, serviceLabel: (string, string), buckets: seq<LatencyTarget>)

  /** strings.Join */
  function Join(parts: seq<string>, sep: string): string
    decreases |parts|
  {
    if |parts| == 0 then "" else if |parts| == 1 then parts[0] else parts[0] + sep + Join(parts[1..], sep)
  }

  /** One condition when there is one, otherwise the conditions joined with " or ". */
  function AnyOf(conditions: seq<string>): string {
    if |conditions| == 1 then conditions[0] else Join(conditions, " or ")
  }

  /** Joining one more part appends the separator and the part. */
  lemma {:induction false} JoinAppend(parts: seq<string>, part: string, sep: string)
    requires |parts| > 0
    ensures Join(parts + [part], sep) == Join(parts, sep) + sep + part
    decreases |parts|
  {
    if |parts| > 1 {
      JoinAppend(parts[1..], part, sep);
      assert (parts + [part])[1..] == parts[1..] + [part];
    } else {
      assert (parts + [part])[1..] == [part];
    }
  }

  /** No condition gives the empty expression, one condition is returned as it is,
      and each further condition is added with " or ". */
  lemma AnyOfCases(conditions: seq<string>)
    ensures |conditions| == 0 ==> AnyOf(conditions) == ""
    ensures |conditions| == 1 ==> AnyOf(conditions) == conditions[0]
    ensures |conditions| >= 2 ==>
      AnyOf(conditions) == AnyOf(conditions[..|conditions| - 1]) + " or " + Last(conditions)
  {
    if |conditions| >= 2 {
      var init := conditions[..|conditions| - 1];
      assert conditions == init + [Last(conditions)];
      JoinAppend(init, Last(conditions), " or ");
      if |init| == 1 {
        assert Join(init, " or ") == init[0];
      }
    }
  }

  /** The format `%s:ratio_rate_%s%s > (%g * %.3g)`: the error ratio over one
      window exceeds the multiplier times the error budget. */
  function ErrorTest(metric: string, window: string, lbs: string, multiplier: Float, value: Float, lib: Lib): string {
    metric + ":ratio_rate_" + window + lbs + " > (" + lib.formatG(multiplier) + " * " + lib.formatG3(value) + ")"
  }

  /** The format `%s:ratio_rate_%s%s < %.3g`: the ratio of fast requests over one
      window is below the bound. */
  function LatencyTest(metric: string, window: string, lbs: string, value: Float, lib: Lib): string {
    metric + ":ratio_rate_" + window + lbs + " < " + lib.formatG3(value)
  }

  /** The format `(%s and %s)` that adds the short-window test to the long-window one. */
  function Both(long: string, short: string): string {
    "(" + long + " and " + short + ")"
  }

  /** The long-window test, ANDed with the same test on the short window if there is one. */
  function ErrorCondition(opts: MultiRateErrorOpts, w: MultiRateWindow, lib: Lib): string {
    var lbs := lib.labelsString(opts.labels);
    var long := ErrorTest(opts.metric, w.longWindow, lbs, w.multiplier, opts.value, lib);
    if w.shortWindow != "" then Both(long, ErrorTest(opts.metric, w.shortWindow, lbs, w.multiplier, opts.value, lib))
    else long
  }

  function ErrorConditions(opts: MultiRateErrorOpts, lib: Lib): seq<string> {
    seq(|opts.rates|, i requires 0 <= i < |opts.rates| => ErrorCondition(opts, opts.rates[i], lib))
  }

  /** One condition per window, in window order, combined with AnyOf. */
  method MultiBurnRate(opts: MultiRateErrorOpts, lib: Lib) returns (expr: string)
    ensures expr == AnyOf(ErrorConditions(opts, lib))
  {
    var conditions: seq<string> := [];
    var i := 0;
    while i < |opts.rates|
      invariant 0 <= i <= |opts.rates|
      invariant |conditions| == i
      invariant forall k :: 0 <= k < i ==> conditions[k] == ErrorCondition(opts, opts.rates[k], lib)
    {
      var window := opts.rates[i];
      var condition := ErrorTest(opts.metric, window.longWindow, lib.labelsString(opts.labels),
                                 window.multiplier, opts.value, lib);
      if window.shortWindow != "" {
        condition := Both(condition, ErrorTest(opts.metric, window.shortWindow, lib.labelsString(opts.labels),
                                               window.multiplier, opts.value, lib));
      }
      conditions := conditions + [condition];
      i := i + 1;
    }
    assert conditions == ErrorConditions(opts, lib);
    if |conditions| == 1 {
      return conditions[0];
    }
    expr := Join(conditions, " or ");
  }

  /** `1 - ((100 - target)/100 * multiplier)` in float64. */
  function LatencyBound(target: Float, multiplier: Float): (b: Float)
    ensures target.Fin? && multiplier.Fin? ==>
      b == Fin(1.0 - (100.0 - target.r) / 100.0 * multiplier.r)
    ensures target.Fin? && multiplier.Fin? && target.r < 100.0 && multiplier.r > 0.0 ==> b.r < 1.0
  {
    var spare := Div(Sub(Fin(100.0), target), Fin(100.0));
    var b := Sub(Fin(1.0), Mul(spare, multiplier));
    assert target.Fin? && multiplier.Fin? ==>
      spare == Fin((100.0 - target.r) / 100.0) &&
      Mul(spare, multiplier) == Fin((100.0 - target.r) / 100.0 * multiplier.r);
    b
  }

  /** The long-window test on the bucket's bound, ANDed with the same test on the
      short window if there is one. */
  function LatencyCondition(opts: MultiRateLatencyOpts, bucket: LatencyTarget, w: MultiRateWindow, lib: Lib): string {
    var value := LatencyBound(bucket.target, w.multiplier);
    var lbs := lib.labelsString([opts.serviceLabel, ("le", bucket.le)]);
    var long := LatencyTest(opts.metric, w.longWindow, lbs, value, lib);
    if w.shortWindow != "" then Both(long, LatencyTest(opts.metric, w.shortWindow, lbs, value, lib))
    else long
  }

  function TargetConditions(opts: MultiRateLatencyOpts, bucket: LatencyTarget, lib: Lib): (r: seq<string>)
    ensures |r| == |opts.rates|
    ensures forall j :: 0 <= j < |r| ==> r[j] == LatencyCondition(opts, bucket, opts.rates[j], lib)
  {
    seq(|opts.rates|, j requires 0 <= j < |opts.rates| => LatencyCondition(opts, bucket, opts.rates[j], lib))
  }

  /** The conditions of the first `n` targets, each target with every window. */
  function LatencyConditions(opts: MultiRateLatencyOpts, n: nat, lib: Lib): seq<string>
    requires n <= |opts.buckets|
  {
    if n == 0 then [] else LatencyConditions(opts, n - 1, lib) + TargetConditions(opts, opts.buckets[n - 1], lib)
  }

  /** Without latency targets there is no condition and the expression is empty. */
  lemma NoTargetsNoExpr(opts: MultiRateLatencyOpts, lib: Lib)
    requires |opts.buckets| == 0
    ensures AnyOf(LatencyConditions(opts, |opts.buckets|, lib)) == ""
  {
  }

  lemma {:induction false} LatencyConditionsLength(opts: MultiRateLatencyOpts, n: nat, lib: Lib)
    requires n <= |opts.buckets|
    ensures |LatencyConditions(opts, n, lib)| == n * |opts.rates|
  {
    if n > 0 {
      LatencyConditionsLength(opts, n - 1, lib);
      assert n * |opts.rates| == (n - 1) * |opts.rates| + |opts.rates|;
    }
  }

  /** The rows of a table one after the other. */
  function Flatten<T>(rows: seq<seq<T>>): seq<T>
    decreases |rows|
  {
    if |rows| == 0 then [] else Flatten(rows[..|rows| - 1]) + rows[|rows| - 1]
  }

  /** In a table whose rows all have length r, cell (i, j) is element i*r+j of the
      flattened table. */
  lemma {:induction false} FlattenAt<T>(rows: seq<seq<T>>, r: nat, i: nat, j: nat)
    requires forall k :: 0 <= k < |rows| ==> |rows[k]| == r
    requires i < |rows| && j < r
    ensures |Flatten(rows)| == |rows| * r
    ensures i * r + j < |rows| * r
    ensures Flatten(rows)[i * r + j] == rows[i][j]
    decreases |rows|
  {
    var m := |rows| - 1;
    var prev := rows[..m];
    assert Flatten(rows) == Flatten(prev) + rows[m];
    RowStart(i, j, m, r);
    if i < m {
      FlattenAt(prev, r, i, j);
    } else {
      if m > 0 {
        FlattenAt(prev, r, 0, 0);
      }
      assert |Flatten(prev)| == m * r;
    }
  }

  /** The conditions of the first n targets, as a table with one row per target. */
  function TargetTable(opts: MultiRateLatencyOpts, n: nat, lib: Lib): (t: seq<seq<string>>)
    requires n <= |opts.buckets|
    ensures |t| == n
    ensures forall k :: 0 <= k < n ==> t[k] == TargetConditions(opts, opts.buckets[k], lib)
  {
    seq(n, k requires 0 <= k < n => TargetConditions(opts, opts.buckets[k], lib))
  }

  lemma {:induction false} LatencyConditionsTable(opts: MultiRateLatencyOpts, n: nat, lib: Lib)
    requires n <= |opts.buckets|
    ensures LatencyConditions(opts, n, lib) == Flatten(TargetTable(opts, n, lib))
  {
    if n > 0 {
      LatencyConditionsTable(opts, n - 1, lib);
      assert TargetTable(opts, n, lib)[..n - 1] == TargetTable(opts, n - 1, lib);
    }
  }

  /** Targets on the outside, windows on the inside: there are |targets|*|windows|
      conditions, and condition number i*|windows|+j belongs to target i and window j. */
  lemma LatencyConditionAt(opts: MultiRateLatencyOpts, n: nat, lib: Lib, i: nat, j: nat)
    requires n <= |opts.buckets| && i < n && j < |opts.rates|
    ensures |LatencyConditions(opts, n, lib)| == n * |opts.rates|
    ensures i * |opts.rates| + j < n * |opts.rates|
    ensures LatencyConditions(opts, n, lib)[i * |opts.rates| + j]
         == LatencyCondition(opts, opts.buckets[i], opts.rates[j], lib)
  {
    LatencyConditionsTable(opts, n, lib);
    FlattenAt(TargetTable(opts, n, lib), |opts.rates|, i, j);
  }

  /** Cell (i, j) of a table with rows of length r lies before row m when i < m,
      and within the first m + 1 rows when i == m. */
  lemma RowStart(i: nat, j: nat, m: nat, r: nat)
    requires i <= m && j < r
    ensures i < m ==> i * r + j < m * r
    ensures i * r + j < m * r + r
  {
    if i < m {
      MulMonotone(i + 1, m, r);
    }
  }

  lemma MulMonotone(a: nat, b: nat, c: nat)
    requires a <= b
    ensures a * c <= b * c
  {
  }

  /** The inner loop of multiBurnRateLatency: one condition per window for `bucket`,
      appended to `conditions`. */
  method AppendTargetConditions(opts: MultiRateLatencyOpts, bucket: LatencyTarget, conditions: seq<string>, lib: Lib)
    returns (conditions': seq<string>)
    ensures conditions' == conditions + TargetConditions(opts, bucket, lib)
  {
    conditions' := conditions;
    var j := 0;
    while j < |opts.rates|
      invariant 0 <= j <= |opts.rates|
      invariant |conditions'| == |conditions| + j
      invariant conditions'[..|conditions|] == conditions
      invariant forall k :: 0 <= k < j ==> conditions'[|conditions| + k] == LatencyCondition(opts, bucket, opts.rates[k], lib)
    {
      var window := opts.rates[j];
      var value := Sub(Fin(1.0), Mul(Div(Sub(Fin(100.0), bucket.target), Fin(100.0)), window.multiplier));
      var lbs := lib.labelsString([opts.serviceLabel, ("le", bucket.le)]);
      var condition := LatencyTest(opts.metric, window.longWindow, lbs, value, lib);
      if window.shortWindow != "" {
        condition := Both(condition, LatencyTest(opts.metric, window.shortWindow, lbs, value, lib));
      }
      assert value == LatencyBound(bucket.target, window.multiplier);
      conditions' := conditions' + [condition];
      j := j + 1;
    }
  }

  /** For each target in turn, one condition per window, combined with AnyOf. */
  method MultiBurnRateLatency(opts: MultiRateLatencyOpts, lib: Lib) returns (expr: string)
    ensures expr == AnyOf(LatencyConditions(opts, |opts.buckets|, lib))
  {
    var conditions: seq<string> := [];
    var i := 0;
    while i < |opts.buckets|
      invariant 0 <= i <= |opts.buckets|
      invariant conditions == LatencyConditions(opts, i, lib)
    {
      conditions := AppendTargetConditions(opts, opts.buckets[i], conditions, lib);
      i := i + 1;
    }
    if |conditions| == 1 {
      return conditions[0];
    }
    expr := Join(conditions, " or ");
  }

  // ---------------------------------------------------------------------------
  // Alerts per severity

  /** What an alert method decides about one alerting rule: its name, its expression
      and its severity. */
  datatype AlertSpec = AlertSpec(alert: string, expr: string, severity: string)

  /** One alert for each severity of `severities` that has windows, in that order. */
  function SeverityAlerts(severities: seq<string>, rates: RateTable, prefix: string,
                          exprOf: seq<MultiRateWindow> -> string): (specs: seq<AlertSpec>)
    ensures |specs| <= |severities|
    ensures forall i :: 0 <= i < |specs| ==>
      && specs[i].severity in severities && specs[i].severity in rates
      && specs[i].alert == prefix + specs[i].severity
      && specs[i].expr == exprOf(rates[specs[i].severity])
    decreases |severities|
  {
    if severities == [] then []
    else
      var severity := Last(severities);
      SeverityAlerts(severities[..|severities| - 1], rates, prefix, exprOf)
        + (if severity in rates then [AlertSpec(prefix + severity, exprOf(rates[severity]), severity)] else [])
  }

  /** Some alert is for `severity`. */
  ghost predicate HasAlertFor(specs: seq<AlertSpec>, severity: string) {
    exists i :: 0 <= i < |specs| && specs[i].severity == severity
  }

  /** Every listed severity that has windows gets an alert. */
  lemma {:induction false} SeverityAlertsComplete(severities: seq<string>, rates: RateTable, prefix: string,
                                                  exprOf: seq<MultiRateWindow> -> string)
    ensures forall s :: s in severities && s in rates ==> HasAlertFor(SeverityAlerts(severities, rates, prefix, exprOf), s)
    decreases |severities|
  {
    if severities != [] {
      var init := severities[..|severities| - 1];
      var severity := Last(severities);
      var prev := SeverityAlerts(init, rates, prefix, exprOf);
      var specs := SeverityAlerts(severities, rates, prefix, exprOf);
      SeverityAlertsComplete(init, rates, prefix, exprOf);
      assert specs == prev + (if severity in rates then [AlertSpec(prefix + severity, exprOf(rates[severity]), severity)] else []);
      assert severities == init + [severity];
      forall s | s in severities && s in rates
        ensures HasAlertFor(specs, s)
      {
        if s in init {
          assert HasAlertFor(prev, s);
          var i :| 0 <= i < |prev| && prev[i].severity == s;
          assert specs[i] == prev[i];
        } else {
          assert s == severity;
          assert specs[|prev|].severity == s;
        }
      }
    }
  }

  /** `x` is listed before `y`. */
  ghost predicate ListedBefore(names: seq<string>, x: string, y: string) {
    exists a, b :: 0 <= a < b < |names| && names[a] == x && names[b] == y
  }

  /** Over distinct severities, alerts follow the order in which the severities are
      listed, and no severity has two alerts. */
  lemma {:induction false} SeverityAlertsOrdered(severities: seq<string>, rates: RateTable, prefix: string,
                                                 exprOf: seq<MultiRateWindow> -> string)
    requires DistinctNames(severities)
    ensures forall i, j :: 0 <= i < j < |SeverityAlerts(severities, rates, prefix, exprOf)| ==>
      ListedBefore(severities, SeverityAlerts(severities, rates, prefix, exprOf)[i].severity,
                   SeverityAlerts(severities, rates, prefix, exprOf)[j].severity)
    ensures forall i, j :: 0 <= i < j < |SeverityAlerts(severities, rates, prefix, exprOf)| ==>
      SeverityAlerts(severities, rates, prefix, exprOf)[i].severity != SeverityAlerts(severities, rates, prefix, exprOf)[j].severity
    decreases |severities|
  {
    SeverityAlertsListed(severities, rates, prefix, exprOf);
    var specs := SeverityAlerts(severities, rates, prefix, exprOf);
    forall i, j | 0 <= i < j < |specs| ensures specs[i].severity != specs[j].severity {
      var a, b :| 0 <= a < b < |severities| && severities[a] == specs[i].severity && severities[b] == specs[j].severity;
    }
  }

  /** The order half of SeverityAlertsOrdered, by induction on the severities. */
  lemma {:induction false} SeverityAlertsListed(severities: seq<string>, rates: RateTable, prefix: string,
                                                exprOf: seq<MultiRateWindow> -> string)
    requires DistinctNames(severities)
    ensures forall i, j :: 0 <= i < j < |SeverityAlerts(severities, rates, prefix, exprOf)| ==>
      ListedBefore(severities, SeverityAlerts(severities, rates, prefix, exprOf)[i].severity,
                   SeverityAlerts(severities, rates, prefix, exprOf)[j].severity)
    decreases |severities|
  {
    if severities != [] {
      var init := severities[..|severities| - 1];
      var severity := Last(severities);
      var prev := SeverityAlerts(init, rates, prefix, exprOf);
      var specs := SeverityAlerts(severities, rates, prefix, exprOf);
      assert DistinctNames(init) by {
        forall i, j | 0 <= i < j < |init| ensures init[i] != init[j] {
          assert init[i] == severities[i] && init[j] == severities[j];
        }
      }
      SeverityAlertsListed(init, rates, prefix, exprOf);
      assert specs == prev + (if severity in rates then [AlertSpec(prefix + severity, exprOf(rates[severity]), severity)] else []);
      forall i, j | 0 <= i < j < |specs|
        ensures ListedBefore(severities, specs[i].severity, specs[j].severity)
      {
        assert specs[i] == prev[i];
        if j < |prev| {
          assert specs[j] == prev[j];
          assert ListedBefore(init, prev[i].severity, prev[j].severity);
          var a, b :| 0 <= a < b < |init| && init[a] == prev[i].severity && init[b] == prev[j].severity;
          assert severities[a] == init[a] && severities[b] == init[b];
        } else {
          assert specs[j].severity == severity;
          assert prev[i].severity in init;
          var a :| 0 <= a < |init| && init[a] == prev[i].severity;
          assert severities[a] == init[a] && severities[|init|] == severity;
        }
      }
    }
  }

  /** At most one alert per severity, page before ticket; a severity without windows
      is skipped and a notification name other than page or ticket yields nothing. */
  lemma PageThenTicket(rates: RateTable, prefix: string, exprOf: seq<MultiRateWindow> -> string)
    ensures var specs := SeverityAlerts(Severities, rates, prefix, exprOf);
      && |specs| == (if "page" in rates then 1 else 0) + (if "ticket" in rates then 1 else 0)
      && (forall i :: 0 <= i < |specs| ==> specs[i].severity == "page" || specs[i].severity == "ticket")
      && (|specs| == 2 ==> specs[0].severity == "page" && specs[1].severity == "ticket")
  {
    assert Severities[..1] == ["page"];
    assert ["page"][..0] == [];
  }

  /** The error budget `1 - availability/100`. The parse error is ignored: a
      syntactically invalid availability counts as 0, giving 1, and an out-of-range
      one as ±Inf, giving ∓Inf. */
  function ErrorBudget(opts: AlertErrorOptions, lib: Lib): (budget: Float)
    ensures lib.parseFloat32(opts.availabilityTarget).None? ==> budget == Fin(1.0)
    ensures lib.parseFloat32(opts.availabilityTarget).Some? && lib.parseFloat32(opts.availabilityTarget).value.Fin? ==>
      budget == Fin(1.0 - lib.parseFloat32(opts.availabilityTarget).value.r / 100.0)
    ensures lib.parseFloat32(opts.availabilityTarget) == Some(PosInf) ==> budget == NegInf
    ensures lib.parseFloat32(opts.availabilityTarget) == Some(NegInf) ==> budget == PosInf
  {
    var availability := match lib.parseFloat32(opts.availabilityTarget)
      case Some(a) => a
      case None => Fin(0.0);
    Sub(Fin(1.0), Div(availability, Fin(100.0)))
  }

  function ErrorBurnOpts(opts: AlertErrorOptions, rates: seq<MultiRateWindow>, lib: Lib): MultiRateErrorOpts {
    MultiRateErrorOpts(rates, "slo:" + opts.serviceName + ":service_errors_total",
      [("service", opts.serviceName)], ErrorBudget(opts, lib))
  }

  function ErrorExprOf(opts: AlertErrorOptions, lib: Lib): seq<MultiRateWindow> -> string {
    rates => AnyOf(ErrorConditions(ErrorBurnOpts(opts, rates, lib), lib))
  }

  /** The loop of AlertForError runs over the whole severity list. */
  lemma ErrorAlertSpecsAll(opts: AlertErrorOptions, lib: Lib)
    ensures SeverityAlerts(Severities[..|Severities|], RateWindows(opts.sloWindow, opts.shortWindow, opts.windows, lib),
      "slo:" + opts.serviceName + ".errors.", ErrorExprOf(opts, lib)) == ErrorAlertSpecs(opts, lib)
  {
    assert Severities[..|Severities|] == Severities;
  }

  /** The error-rate alerts of AlertForError. */
  function ErrorAlertSpecs(opts: AlertErrorOptions, lib: Lib): seq<AlertSpec> {
    SeverityAlerts(Severities, RateWindows(opts.sloWindow, opts.shortWindow, opts.windows, lib),
      "slo:" + opts.serviceName + ".errors.", ErrorExprOf(opts, lib))
  }

  function LatencyBurnOpts(opts: AlertLatencyOptions, rates: seq<MultiRateWindow>): MultiRateLatencyOpts {
    MultiRateLatencyOpts(rates, "slo:" + opts.serviceName + ":service_latency",
      ("service", opts.serviceName), opts.targets)
  }

  function LatencyExprOf(opts: AlertLatencyOptions, lib: Lib): seq<MultiRateWindow> -> string {
    rates => AnyOf(LatencyConditions(LatencyBurnOpts(opts, rates), |opts.targets|, lib))
  }

  /** The loop of AlertForLatency runs over the whole severity list. */
  lemma LatencyAlertSpecsAll(opts: AlertLatencyOptions, lib: Lib)
    ensures SeverityAlerts(Severities[..|Severities|], RateWindows(opts.sloWindow, opts.shortWindow, opts.windows, lib),
      "slo:" + opts.serviceName + ".latency.", LatencyExprOf(opts, lib)) == LatencyAlertSpecs(opts, lib)
  {
    assert Severities[..|Severities|] == Severities;
  }

  /** The latency alerts of AlertForLatency. */
  function LatencyAlertSpecs(opts: AlertLatencyOptions, lib: Lib): seq<AlertSpec> {
    SeverityAlerts(Severities, RateWindows(opts.sloWindow, opts.shortWindow, opts.windows, lib),
      "slo:" + opts.serviceName + ".latency.", LatencyExprOf(opts, lib))
  }

  function SeverityLabels(severity: string): map<string, string> {
    map["severity" := severity]
  }

  /** `r` is the alerting rule an alert method builds for `spec`: labels and
      annotations both hold only the severity. */
  ghost predicate Realises(r: Rule, spec: AlertSpec)
    reads r.labels, r.annotations
  {
    && r.record == "" && r.alert == spec.alert && r.expr == spec.expr && r.forDuration == ""
    && r.labels != null && r.annotations != null
    && r.labels.entries == SeverityLabels(spec.severity)
    && r.annotations.entries == SeverityLabels(spec.severity)
  }

  /** Adding one severity to the list adds at most its alert, at the end. */
  lemma SeverityAlertsStep(severities: seq<string>, i: nat, rates: RateTable, prefix: string,
                           exprOf: seq<MultiRateWindow> -> string)
    requires i < |severities|
    ensures SeverityAlerts(severities[..i + 1], rates, prefix, exprOf)
         == SeverityAlerts(severities[..i], rates, prefix, exprOf)
          + (if severities[i] in rates then [AlertSpec(prefix + severities[i], exprOf(rates[severities[i]]), severities[i])] else [])
  {
    assert severities[..i + 1][..i] == severities[..i];
  }

  /** The promoperator.Rule literal of an alert method, with its own label and
      annotation maps holding the severity. */
  method NewAlertRule(alert: string, expr: string, severity: string) returns (r: Rule)
    ensures Realises(r, AlertSpec(alert, expr, severity))
    ensures fresh(r.labels) && fresh(r.annotations) && r.labels != r.annotations
  {
    var labels := new LabelMap(map["severity" := severity]);
    var annotations := new LabelMap(map["severity" := severity]);
    r := Rule("", alert, expr, "", labels, annotations);
  }

  /** `rules` realise `specs` one for one, every label and annotation map is
      a separate object, and all of them are among `maps`. */
  ghost predicate AlertsBuilt(rules: seq<Rule>, specs: seq<AlertSpec>, maps: set<object>)
    reads set k | 0 <= k < |rules| :: rules[k].labels
    reads set k | 0 <= k < |rules| :: rules[k].annotations
  {
    && |rules| == |specs|
    && (forall k :: 0 <= k < |rules| ==> Realises(rules[k], specs[k]))
    && SeparateMaps(rules)
    && (forall k :: 0 <= k < |rules| ==> rules[k].labels in maps && rules[k].annotations in maps)
  }

  /** Appending a rule whose maps are not among those of `rules` keeps every
      map separate. */
  lemma AlertsBuiltAppend(rules: seq<Rule>, specs: seq<AlertSpec>, maps: set<object>, r: Rule, spec: AlertSpec)
    requires AlertsBuilt(rules, specs, maps)
    requires Realises(r, spec) && r.labels != r.annotations
    requires r.labels !in maps && r.annotations !in maps
    ensures AlertsBuilt(rules + [r], specs + [spec], maps + {r.labels, r.annotations})
  {
    assert SeparateMaps(rules + [r]);
  }

  /** The body of AlertForError's loop for a severity that has windows. */
  method ErrorAlert(opts: AlertErrorOptions, rates: seq<MultiRateWindow>, severity: string, lib: Lib)
    returns (rule: Rule)
    ensures Realises(rule, AlertSpec("slo:" + opts.serviceName + ".errors." + severity, ErrorExprOf(opts, lib)(rates), severity))
    ensures fresh(rule.labels) && fresh(rule.annotations) && rule.labels != rule.annotations
  {
    var availabilityTarget := match lib.parseFloat32(opts.availabilityTarget)
      case Some(a) => a
      case None => Fin(0.0);
    var burnOpts := MultiRateErrorOpts(
      rates,
      "slo:" + opts.serviceName + ":service_errors_total",
      [("service", opts.serviceName)],
      Sub(Fin(1.0), Div(availabilityTarget, Fin(100.0))));
    assert burnOpts == ErrorBurnOpts(opts, rates, lib);
    var multiBurnRate := MultiBurnRate(burnOpts, lib);
    rule := NewAlertRule("slo:" + opts.serviceName + ".errors." + severity, multiBurnRate, severity);
  }

  /** The body of AlertForLatency's loop for a severity that has windows. */
  method LatencyAlert(opts: AlertLatencyOptions, rates: seq<MultiRateWindow>, severity: string, lib: Lib)
    returns (rule: Rule)
    ensures Realises(rule, AlertSpec("slo:" + opts.serviceName + ".latency." + severity, LatencyExprOf(opts, lib)(rates), severity))
    ensures fresh(rule.labels) && fresh(rule.annotations) && rule.labels != rule.annotations
  {
    var burnOpts := MultiRateLatencyOpts(
      rates,
      "slo:" + opts.serviceName + ":service_latency",
      ("service", opts.serviceName),
      opts.targets);
    var burnRate := MultiBurnRateLatency(burnOpts, lib);
    rule := NewAlertRule("slo:" + opts.serviceName + ".latency." + severity, burnRate, severity);
  }

  /** One iteration of AlertForError's loop over the severities. */
  method ErrorStep(opts: AlertErrorOptions, ratesMap: RateTable, severities: seq<string>, i: nat, rules: seq<Rule>,
                   ghost specs: seq<AlertSpec>, ghost maps: set<object>, lib: Lib)
    returns (rules': seq<Rule>, ghost specs': seq<AlertSpec>, ghost maps': set<object>)
    requires i < |severities|
    requires specs == SeverityAlerts(severities[..i], ratesMap, "slo:" + opts.serviceName + ".errors.", ErrorExprOf(opts, lib))
    requires AlertsBuilt(rules, specs, maps)
    requires forall o :: o in maps ==> allocated(o)
    ensures specs' == SeverityAlerts(severities[..i + 1], ratesMap, "slo:" + opts.serviceName + ".errors.", ErrorExprOf(opts, lib))
    ensures AlertsBuilt(rules', specs', maps')
    ensures forall o :: o in maps' ==> allocated(o)
    ensures forall o :: o in maps' ==> o in maps || fresh(o)
  {
    SeverityAlertsStep(severities, i, ratesMap, "slo:" + opts.serviceName + ".errors.", ErrorExprOf(opts, lib));
    rules', specs', maps' := rules, specs, maps;
    var severity := severities[i];
    if severity in ratesMap {
      var rule := ErrorAlert(opts, ratesMap[severity], severity, lib);
      assert rule.labels !in maps && rule.annotations !in maps;
      AlertsBuiltAppend(rules, specs, maps, rule, AlertSpec(rule.alert, rule.expr, severity));
      rules' := rules + [rule];
      maps' := maps + {rule.labels, rule.annotations};
      specs' := specs + [AlertSpec(rule.alert, rule.expr, severity)];
    }
  }

  /** AlertForError: one alerting rule per severity that has windows, page before
      ticket, each with its own label and annotation maps. */
  method AlertForError(opts: AlertErrorOptions, lib: Lib) returns (rules: seq<Rule>, err: Option<string>)
    ensures err == None
    ensures |rules| == |ErrorAlertSpecs(opts, lib)|
    ensures forall i :: 0 <= i < |rules| ==> Realises(rules[i], ErrorAlertSpecs(opts, lib)[i])
    ensures SeparateMaps(rules)
    ensures forall i :: 0 <= i < |rules| ==> fresh(rules[i].labels) && fresh(rules[i].annotations)
  {
    var ratesMap := GenMultiRateWindows(opts.sloWindow, opts.shortWindow, opts.windows, lib);
    rules := [];
    ghost var specs: seq<AlertSpec> := [];
    ghost var maps: set<object> := {};
    var i := 0;
    while i < |Severities|
      invariant 0 <= i <= |Severities|
      invariant specs == SeverityAlerts(Severities[..i], ratesMap, "slo:" + opts.serviceName + ".errors.", ErrorExprOf(opts, lib))
      invariant AlertsBuilt(rules, specs, maps)
      invariant forall o :: o in maps ==> allocated(o)
      invariant forall o :: o in maps ==> fresh(o)
    {
      rules, specs, maps := ErrorStep(opts, ratesMap, Severities, i, rules, specs, maps, lib);
      i := i + 1;
    }
    ErrorAlertSpecsAll(opts, lib);
    err := None;
  }

  /** One iteration of AlertForLatency's loop over the severities. */
  method LatencyStep(opts: AlertLatencyOptions, ratesMap: RateTable, severities: seq<string>, i: nat, rules: seq<Rule>,
                   ghost specs: seq<AlertSpec>, ghost maps: set<object>, lib: Lib)
    returns (rules': seq<Rule>, ghost specs': seq<AlertSpec>, ghost maps': set<object>)
    requires i < |severities|
    requires specs == SeverityAlerts(severities[..i], ratesMap, "slo:" + opts.serviceName + ".latency.", LatencyExprOf(opts, lib))
    requires AlertsBuilt(rules, specs, maps)
    requires forall o :: o in maps ==> allocated(o)
    ensures specs' == SeverityAlerts(severities[..i + 1], ratesMap, "slo:" + opts.serviceName + ".latency.", LatencyExprOf(opts, lib))
    ensures AlertsBuilt(rules', specs', maps')
    ensures forall o :: o in maps' ==> allocated(o)
    ensures forall o :: o in maps' ==> o in maps || fresh(o)
  {
    SeverityAlertsStep(severities, i, ratesMap, "slo:" + opts.serviceName + ".latency.", LatencyExprOf(opts, lib));
    rules', specs', maps' := rules, specs, maps;
    var severity := severities[i];
    if severity in ratesMap {
      var rule := LatencyAlert(opts, ratesMap[severity], severity, lib);
      assert rule.labels !in maps && rule.annotations !in maps;
      AlertsBuiltAppend(rules, specs, maps, rule, AlertSpec(rule.alert, rule.expr, severity));
      rules' := rules + [rule];
      maps' := maps + {rule.labels, rule.annotations};
      specs' := specs + [AlertSpec(rule.alert, rule.expr, severity)];
    }
  }

  /** AlertForLatency: one alerting rule per severity that has windows, page before
      ticket, each with its own label and annotation maps. */
  method AlertForLatency(opts: AlertLatencyOptions, lib: Lib) returns (rules: seq<Rule>, err: Option<string>)
    ensures err == None
    ensures |rules| == |LatencyAlertSpecs(opts, lib)|
    ensures forall i :: 0 <= i < |rules| ==> Realises(rules[i], LatencyAlertSpecs(opts, lib)[i])
    ensures SeparateMaps(rules)
    ensures forall i :: 0 <= i < |rules| ==> fresh(rules[i].labels) && fresh(rules[i].annotations)
  {
    var ratesMap := GenMultiRateWindows(opts.sloWindow, opts.shortWindow, opts.windows, lib);
    rules := [];
    ghost var specs: seq<AlertSpec> := [];
    ghost var maps: set<object> := {};
    var i := 0;
    while i < |Severities|
      invariant 0 <= i <= |Severities|
      invariant specs == SeverityAlerts(Severities[..i], ratesMap, "slo:" + opts.serviceName + ".latency.", LatencyExprOf(opts, lib))
      invariant AlertsBuilt(rules, specs, maps)
      invariant forall o :: o in maps ==> allocated(o)
      invariant forall o :: o in maps ==> fresh(o)
    {
      rules, specs, maps := LatencyStep(opts, ratesMap, Severities, i, rules, specs, maps, lib);
      i := i + 1;
    }
    LatencyAlertSpecsAll(opts, lib);
    err := None;
  }

  /** Package initialisation: the registry starts empty and this method is
      registered under "multi-window". */
  method Init() returns (registry: Registry)
    ensures fresh(registry)
    ensures registry.methods == map["multi-window" := MultiWindowAlgorithm]
  {
    registry := new Registry();
    var _ := registry.Register(MultiWindowAlgorithm, "multi-window");
  }
}

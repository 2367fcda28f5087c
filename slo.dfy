/** generateAlertRules and fillMetadata of pkg/slo/slo.go: the windows and targets
    of the custom resource are parsed, the registered alert method turns them into
    alerting rules, and every alerting rule then receives the Slo's namespace and
    labels. */
module AlertRules {
  import opened Common
  import opened Foreign
  import opened GoMaps
  import opened SloTypes
  import opened PromRules
  import opened Recording
  import Alerts
  import MultiWindow

  // ---------------------------------------------------------------------------
  // Parsing the custom resource

  /** Parse every element in order and stop at the first one that does not parse. */
  function ParseAll<A, B>(xs: seq<A>, parse: A -> Result<B>): (r: Result<seq<B>>)
    ensures r.Ok? <==> forall i :: 0 <= i < |xs| ==> parse(xs[i]).Ok?
    ensures r.Ok? ==> |r.value| == |xs| && forall i :: 0 <= i < |xs| ==> r.value[i] == parse(xs[i]).value
    decreases |xs|
  {
    if |xs| == 0 then Ok([])
    else
      var first :- parse(xs[0]);
      var rest :- ParseAll(xs[1..], parse);
      Ok([first] + rest)
  }

  /** The failure reported is that of the first element that does not parse. */
  lemma {:induction false} ParseAllFailure<A, B>(xs: seq<A>, parse: A -> Result<B>)
    requires ParseAll(xs, parse).Fail?
    ensures exists i :: (0 <= i < |xs| && parse(xs[i]).Fail? && ParseAll(xs, parse).failure == parse(xs[i]).failure
                         && forall j :: 0 <= j < i ==> parse(xs[j]).Ok?)
    decreases |xs|
  {
    if parse(xs[0]).Fail? {
      assert 0 < |xs| && parse(xs[0]).Fail? && ParseAll(xs, parse).failure == parse(xs[0]).failure;
    } else {
      ParseAllFailure(xs[1..], parse);
      var i :| 0 <= i < |xs[1..]| && parse(xs[1..][i]).Fail? && ParseAll(xs[1..], parse).failure == parse(xs[1..][i]).failure
        && forall j :: 0 <= j < i ==> parse(xs[1..][j]).Ok?;
      assert parse(xs[i + 1]).Fail? && ParseAll(xs, parse).failure == parse(xs[i + 1]).failure;
      assert forall j :: 0 <= j < i + 1 ==> parse(xs[j]).Ok? by {
        forall j | 0 <= j < i + 1 ensures parse(xs[j]).Ok? {
          if j > 0 {
            assert xs[j] == xs[1..][j - 1];
          }
        }
      }
    }
  }

  /** What remains to be parsed, behind what has been parsed already. */
  function Behind<B>(parsed: seq<B>, rest: Result<seq<B>>): Result<seq<B>> {
    if rest.Ok? then Ok(parsed + rest.value) else rest
  }

  lemma BehindAppend<B>(parsed: seq<B>, v: B, rest: Result<seq<B>>)
    ensures Behind(parsed, Behind([v], rest)) == Behind(parsed + [v], rest)
  {
    if rest.Ok? {
      assert parsed + ([v] + rest.value) == parsed + [v] + rest.value;
    }
  }

  /** The loops of generateAlertRules that parse windows and latency targets,
      returning the first error. */
  method ParseEach<A, B>(xs: seq<A>, parse: A -> Result<B>) returns (r: Result<seq<B>>)
    ensures r == ParseAll(xs, parse)
  {
    var parsed: seq<B> := [];
    assert xs[0..] == xs;
    assert Behind(parsed, ParseAll(xs, parse)) == ParseAll(xs, parse) by {
      if ParseAll(xs, parse).Ok? {
        assert parsed + ParseAll(xs, parse).value == ParseAll(xs, parse).value;
      }
    }
    for i := 0 to |xs|
      invariant ParseAll(xs, parse) == Behind(parsed, ParseAll(xs[i..], parse))
    {
      var p := parse(xs[i]);
      if p.Fail? {
        return Fail(p.failure);
      }
      assert xs[i..][1..] == xs[i + 1..];
      BehindAppend(parsed, p.value, ParseAll(xs[i + 1..], parse));
      parsed := parsed + [p.value];
    }
    assert parsed + [] == parsed;
    r := Ok(parsed);
  }

  /** One window: the duration by model.ParseDuration, the consumption by
      strconv.ParseFloat at 64 bits. A duration that does not parse is reported
      "to float" for error windows and "to duration" for latency windows. */
  function ParseWindow(w: SloTypes.Window, durationWord: string, lib: Lib): (r: Result<Alerts.Window>)
    ensures r.Ok? <==> lib.parseModelDuration(w.duration).Some? && lib.parseFloat64(w.consumption).Some?
    ensures r.Ok? ==> r.value == Alerts.Window(lib.parseModelDuration(w.duration).value,
                                               lib.parseFloat64(w.consumption).value, w.notification)
    ensures lib.parseModelDuration(w.duration).None? ==>
      r == Fail(ConfigError("failed to convert " + w.duration + " to " + durationWord))
    ensures lib.parseModelDuration(w.duration).Some? && lib.parseFloat64(w.consumption).None? ==>
      r == Fail(ConfigError("failed to convert " + w.consumption + " to float"))
  {
    match lib.parseModelDuration(w.duration)
    case None => Fail(ConfigError("failed to convert " + w.duration + " to " + durationWord))
    case Some(duration) =>
      match lib.parseFloat64(w.consumption)
      case None => Fail(ConfigError("failed to convert " + w.consumption + " to float"))
      case Some(consumption) => Ok(Alerts.Window(duration, consumption, w.notification))
  }

  function WindowParser(durationWord: string, lib: Lib): SloTypes.Window -> Result<Alerts.Window> {
    w => ParseWindow(w, durationWord, lib)
  }

  /** One latency target: the target by strconv.ParseFloat at 64 bits. */
  function ParseTarget(t: SloTypes.LatencyTarget, lib: Lib): (r: Result<Alerts.LatencyTarget>)
    ensures r.Ok? <==> lib.parseFloat64(t.target).Some?
    ensures r.Ok? ==> r.value == Alerts.LatencyTarget(t.le, lib.parseFloat64(t.target).value)
    ensures r.Fail? ==> r.failure == ConfigError("failed to convert " + t.target + " to float")
  {
    match lib.parseFloat64(t.target)
    case None => Fail(ConfigError("failed to convert " + t.target + " to float"))
    case Some(target) => Ok(Alerts.LatencyTarget(t.le, target))
  }

  function TargetParser(lib: Lib): SloTypes.LatencyTarget -> Result<Alerts.LatencyTarget> {
    t => ParseTarget(t, lib)
  }

  /** The objectives window by time.ParseDuration. */
  function ObjectivesWindow(slo: Slo, lib: Lib): (r: Result<int>)
    ensures r.Ok? <==> lib.parseTimeDuration(slo.spec.objectives.window).Some?
    ensures r.Ok? ==> r.value == lib.parseTimeDuration(slo.spec.objectives.window).value
    ensures r.Fail? ==> r.failure == ConfigError("failed to convert " + slo.spec.objectives.window + " to duration")
  {
    match lib.parseTimeDuration(slo.spec.objectives.window)
    case None => Fail(ConfigError("failed to convert " + slo.spec.objectives.window + " to duration"))
    case Some(d) => Ok(d)
  }

  /** log.Panicf for a method name that is not registered. */
  function InvalidMethod(name: string): Failure {
    Panic("alertMethod " + name + " is not valid")
  }

  // ---------------------------------------------------------------------------
  // Which alerts are generated

  function ErrorOptions(slo: Slo, windows: seq<Alerts.Window>, sloWindow: int): Alerts.AlertErrorOptions {
    Alerts.AlertErrorOptions(SanitizeString(slo.name), slo.spec.objectives.availability, sloWindow, windows,
      GetShortWindow(slo.spec.errorRateRecord), slo.spec.errorRateRecord.burnRate)
  }

  /** The burn rate handed to the latency method is the error block's. */
  function LatencyOptions(slo: Slo, targets: seq<Alerts.LatencyTarget>, windows: seq<Alerts.Window>, sloWindow: int)
    : Alerts.AlertLatencyOptions
  {
    Alerts.AlertLatencyOptions(SanitizeString(slo.name), targets, sloWindow, windows,
      GetShortWindow(slo.spec.latencyRecord), slo.spec.errorRateRecord.burnRate)
  }

  /** The error-rate alerts: none without an alert method, a panic for an unknown
      one, otherwise the windows and then the objectives window are parsed. */
  function ErrorAlertsSpec(slo: Slo, methods: map<string, Alerts.AlertMethod>, lib: Lib)
    : Result<seq<MultiWindow.AlertSpec>>
  {
    var block := slo.spec.errorRateRecord;
    if block.alertMethod == "" then Ok([])
    else if block.alertMethod !in methods then Fail(InvalidMethod(block.alertMethod))
    else
      var windows :- ParseAll(block.windows, WindowParser("float", lib));
      var sloWindow :- ObjectivesWindow(slo, lib);
      Ok(MultiWindow.ErrorAlertSpecs(ErrorOptions(slo, windows, sloWindow), lib))
  }

  /** The latency alerts: the method is checked first, nothing is generated when
      the objectives declare no latency, otherwise the targets, the windows and the
      objectives window are parsed in that order. */
  function LatencyAlertsSpec(slo: Slo, methods: map<string, Alerts.AlertMethod>, lib: Lib)
    : Result<seq<MultiWindow.AlertSpec>>
  {
    var block := slo.spec.latencyRecord;
    if block.alertMethod == "" then Ok([])
    else if block.alertMethod !in methods then Fail(InvalidMethod(block.alertMethod))
    else
      match slo.spec.objectives.latency
      case None => Ok([])
      case Some(declared) =>
        var targets :- ParseAll(declared, TargetParser(lib));
        var windows :- ParseAll(block.windows, WindowParser("duration", lib));
        var sloWindow :- ObjectivesWindow(slo, lib);
        Ok(MultiWindow.LatencyAlertSpecs(LatencyOptions(slo, targets, windows, sloWindow), lib))
  }

  /** All alerts, error-rate alerts first; an error in the error block hides any
      error in the latency block. */
  function AlertRulesSpec(slo: Slo, methods: map<string, Alerts.AlertMethod>, lib: Lib)
    : Result<seq<MultiWindow.AlertSpec>>
  {
    var errorAlerts :- ErrorAlertsSpec(slo, methods, lib);
    var latencyAlerts :- LatencyAlertsSpec(slo, methods, lib);
    Ok(errorAlerts + latencyAlerts)
  }

  /** An error in the error block hides any error in the latency block; without
      errors the error-rate alerts come first. */
  lemma AlertRulesOrder(slo: Slo, methods: map<string, Alerts.AlertMethod>, lib: Lib)
    ensures ErrorAlertsSpec(slo, methods, lib).Fail? ==>
      AlertRulesSpec(slo, methods, lib) == Fail(ErrorAlertsSpec(slo, methods, lib).failure)
    ensures ErrorAlertsSpec(slo, methods, lib).Ok? && LatencyAlertsSpec(slo, methods, lib).Fail? ==>
      AlertRulesSpec(slo, methods, lib) == Fail(LatencyAlertsSpec(slo, methods, lib).failure)
    ensures ErrorAlertsSpec(slo, methods, lib).Ok? && LatencyAlertsSpec(slo, methods, lib).Ok? ==>
      AlertRulesSpec(slo, methods, lib) == Ok(ErrorAlertsSpec(slo, methods, lib).value + LatencyAlertsSpec(slo, methods, lib).value)
  {
  }

  /** Latency alerts need both an alert method and declared latency objectives:
      without either, the latency block yields nothing and cannot fail. */
  lemma LatencyAlertsNeedMethodAndObjectives(slo: Slo, methods: map<string, Alerts.AlertMethod>, lib: Lib)
    ensures slo.spec.latencyRecord.alertMethod == "" ==> LatencyAlertsSpec(slo, methods, lib) == Ok([])
    ensures slo.spec.latencyRecord.alertMethod in methods && slo.spec.objectives.latency.None? ==>
      LatencyAlertsSpec(slo, methods, lib) == Ok([])
  {
  }

  /** At most one error-rate alert per severity, named after the sanitised Slo
      name and the severity. */
  lemma ErrorAlertsNamed(slo: Slo, methods: map<string, Alerts.AlertMethod>, lib: Lib)
    requires ErrorAlertsSpec(slo, methods, lib).Ok?
    ensures var specs := ErrorAlertsSpec(slo, methods, lib).value;
      && |specs| <= 2
      && forall i :: 0 <= i < |specs| ==>
           && (specs[i].severity == "page" || specs[i].severity == "ticket")
           && specs[i].alert == "slo:" + SanitizeString(slo.name) + ".errors." + specs[i].severity
  {
    var block := slo.spec.errorRateRecord;
    if block.alertMethod != "" {
      var windows := ParseAll(block.windows, WindowParser("float", lib)).value;
      var opts := ErrorOptions(slo, windows, ObjectivesWindow(slo, lib).value);
      MultiWindow.PageThenTicket(MultiWindow.RateWindows(opts.sloWindow, opts.shortWindow, opts.windows, lib),
        "slo:" + opts.serviceName + ".errors.", MultiWindow.ErrorExprOf(opts, lib));
    }
  }

  /** At most one latency alert per severity, named after the sanitised Slo name
      and the severity. */
  lemma LatencyAlertsNamed(slo: Slo, methods: map<string, Alerts.AlertMethod>, lib: Lib)
    requires LatencyAlertsSpec(slo, methods, lib).Ok?
    ensures var specs := LatencyAlertsSpec(slo, methods, lib).value;
      && |specs| <= 2
      && forall i :: 0 <= i < |specs| ==>
           && (specs[i].severity == "page" || specs[i].severity == "ticket")
           && specs[i].alert == "slo:" + SanitizeString(slo.name) + ".latency." + specs[i].severity
  {
    var block := slo.spec.latencyRecord;
    if block.alertMethod != "" && slo.spec.objectives.latency.Some? {
      var targets := ParseAll(slo.spec.objectives.latency.value, TargetParser(lib)).value;
      var windows := ParseAll(block.windows, WindowParser("duration", lib)).value;
      var opts := LatencyOptions(slo, targets, windows, ObjectivesWindow(slo, lib).value);
      MultiWindow.PageThenTicket(MultiWindow.RateWindows(opts.sloWindow, opts.shortWindow, opts.windows, lib),
        "slo:" + opts.serviceName + ".latency.", MultiWindow.LatencyExprOf(opts, lib));
    }
  }

  /** A registered method with no declared windows uses the built-in table, which
      has windows for both severities: a page alert and a ticket alert. */
  lemma ErrorAlertsDefaultWindows(slo: Slo, methods: map<string, Alerts.AlertMethod>, lib: Lib)
    requires slo.spec.errorRateRecord.alertMethod != "" && slo.spec.errorRateRecord.alertMethod in methods
    requires slo.spec.errorRateRecord.windows == []
    requires lib.parseTimeDuration(slo.spec.objectives.window).Some?
    ensures ErrorAlertsSpec(slo, methods, lib).Ok?
    ensures var specs := ErrorAlertsSpec(slo, methods, lib).value;
      |specs| == 2 && specs[0].severity == "page" && specs[1].severity == "ticket"
  {
    var opts := ErrorOptions(slo, [], ObjectivesWindow(slo, lib).value);
    MultiWindow.PageThenTicket(MultiWindow.RateWindows(opts.sloWindow, opts.shortWindow, opts.windows, lib),
      "slo:" + opts.serviceName + ".errors.", MultiWindow.ErrorExprOf(opts, lib));
  }

  /** The same for latency alerts, once the objectives declare latency targets
      that all parse. */
  lemma LatencyAlertsDefaultWindows(slo: Slo, methods: map<string, Alerts.AlertMethod>, lib: Lib)
    requires slo.spec.latencyRecord.alertMethod != "" && slo.spec.latencyRecord.alertMethod in methods
    requires slo.spec.latencyRecord.windows == []
    requires slo.spec.objectives.latency.Some?
    requires forall t :: t in slo.spec.objectives.latency.value ==> lib.parseFloat64(t.target).Some?
    requires lib.parseTimeDuration(slo.spec.objectives.window).Some?
    ensures LatencyAlertsSpec(slo, methods, lib).Ok?
    ensures var specs := LatencyAlertsSpec(slo, methods, lib).value;
      |specs| == 2 && specs[0].severity == "page" && specs[1].severity == "ticket"
  {
    var declared := slo.spec.objectives.latency.value;
    assert forall i :: 0 <= i < |declared| ==> TargetParser(lib)(declared[i]).Ok? by {
      forall i | 0 <= i < |declared| ensures TargetParser(lib)(declared[i]).Ok? {
        assert declared[i] in declared;
      }
    }
    var targets := ParseAll(declared, TargetParser(lib)).value;
    var opts := LatencyOptions(slo, targets, [], ObjectivesWindow(slo, lib).value);
    MultiWindow.PageThenTicket(MultiWindow.RateWindows(opts.sloWindow, opts.shortWindow, opts.windows, lib),
      "slo:" + opts.serviceName + ".latency.", MultiWindow.LatencyExprOf(opts, lib));
  }

  /** The first window that does not parse decides the error, which is a
      configuration error and not a panic. */
  lemma ErrorWindowRejected(slo: Slo, methods: map<string, Alerts.AlertMethod>, lib: Lib, i: nat)
    requires slo.spec.errorRateRecord.alertMethod != "" && slo.spec.errorRateRecord.alertMethod in methods
    requires i < |slo.spec.errorRateRecord.windows|
    requires ParseWindow(slo.spec.errorRateRecord.windows[i], "float", lib).Fail?
    ensures ErrorAlertsSpec(slo, methods, lib).Fail? && ErrorAlertsSpec(slo, methods, lib).failure.ConfigError?
    ensures exists k :: (0 <= k <= i && ParseWindow(slo.spec.errorRateRecord.windows[k], "float", lib).Fail?
                         && ErrorAlertsSpec(slo, methods, lib).failure == ParseWindow(slo.spec.errorRateRecord.windows[k], "float", lib).failure
                         && forall j :: 0 <= j < k ==> ParseWindow(slo.spec.errorRateRecord.windows[j], "float", lib).Ok?)
  {
    var ws := slo.spec.errorRateRecord.windows;
    assert !WindowParser("float", lib)(ws[i]).Ok?;
    ParseAllFailure(ws, WindowParser("float", lib));
    var k :| 0 <= k < |ws| && WindowParser("float", lib)(ws[k]).Fail?
      && ParseAll(ws, WindowParser("float", lib)).failure == WindowParser("float", lib)(ws[k]).failure
      && forall j :: 0 <= j < k ==> WindowParser("float", lib)(ws[j]).Ok?;
    assert k <= i;
    assert ErrorAlertsSpec(slo, methods, lib).failure == ParseWindow(ws[k], "float", lib).failure;
  }

  /** ParseAll stops at the first element that does not parse: an element at or
      before `i` when `xs[i]` does not parse. */
  lemma FirstFailure<A, B>(xs: seq<A>, parse: A -> Result<B>, i: nat)
    requires i < |xs| && parse(xs[i]).Fail?
    ensures ParseAll(xs, parse).Fail?
    ensures exists k :: (0 <= k <= i && parse(xs[k]).Fail? && ParseAll(xs, parse).failure == parse(xs[k]).failure
                         && forall j :: 0 <= j < k ==> parse(xs[j]).Ok?)
  {
    ParseAllFailure(xs, parse);
    var k :| 0 <= k < |xs| && parse(xs[k]).Fail? && ParseAll(xs, parse).failure == parse(xs[k]).failure
      && forall j :: 0 <= j < k ==> parse(xs[j]).Ok?;
    assert k <= i;
  }

  /** The first latency target that does not parse decides the error, a
      configuration error naming that target. */
  lemma LatencyTargetRejected(slo: Slo, methods: map<string, Alerts.AlertMethod>, lib: Lib, i: nat)
    requires slo.spec.latencyRecord.alertMethod != "" && slo.spec.latencyRecord.alertMethod in methods
    requires slo.spec.objectives.latency.Some? && i < |slo.spec.objectives.latency.value|
    requires ParseTarget(slo.spec.objectives.latency.value[i], lib).Fail?
    ensures LatencyAlertsSpec(slo, methods, lib).Fail?
    ensures var declared := slo.spec.objectives.latency.value;
      exists k :: (0 <= k <= i && lib.parseFloat64(declared[k].target).None?
                   && LatencyAlertsSpec(slo, methods, lib).failure == ConfigError("failed to convert " + declared[k].target + " to float")
                   && forall j :: 0 <= j < k ==> lib.parseFloat64(declared[j].target).Some?)
  {
    var declared := slo.spec.objectives.latency.value;
    FirstFailure(declared, TargetParser(lib), i);
    var k :| 0 <= k <= i && TargetParser(lib)(declared[k]).Fail?
      && ParseAll(declared, TargetParser(lib)).failure == TargetParser(lib)(declared[k]).failure
      && forall j :: 0 <= j < k ==> TargetParser(lib)(declared[j]).Ok?;
    assert LatencyAlertsSpec(slo, methods, lib).failure == ParseTarget(declared[k], lib).failure;
    assert forall j :: 0 <= j < k ==> ParseTarget(declared[j], lib).Ok?;
  }

  /** Once the targets parse, the first latency window that does not parse decides
      the error, a configuration error. */
  lemma LatencyWindowRejected(slo: Slo, methods: map<string, Alerts.AlertMethod>, lib: Lib, i: nat)
    requires slo.spec.latencyRecord.alertMethod != "" && slo.spec.latencyRecord.alertMethod in methods
    requires slo.spec.objectives.latency.Some?
    requires forall t :: t in slo.spec.objectives.latency.value ==> lib.parseFloat64(t.target).Some?
    requires i < |slo.spec.latencyRecord.windows|
    requires ParseWindow(slo.spec.latencyRecord.windows[i], "duration", lib).Fail?
    ensures LatencyAlertsSpec(slo, methods, lib).Fail? && LatencyAlertsSpec(slo, methods, lib).failure.ConfigError?
    ensures var ws := slo.spec.latencyRecord.windows;
      exists k :: (0 <= k <= i && ParseWindow(ws[k], "duration", lib).Fail?
                   && LatencyAlertsSpec(slo, methods, lib).failure == ParseWindow(ws[k], "duration", lib).failure
                   && forall j :: 0 <= j < k ==> ParseWindow(ws[j], "duration", lib).Ok?)
  {
    var declared := slo.spec.objectives.latency.value;
    assert ParseAll(declared, TargetParser(lib)).Ok? by {
      forall j | 0 <= j < |declared| ensures TargetParser(lib)(declared[j]).Ok? {
        assert declared[j] in declared;
      }
    }
    var ws := slo.spec.latencyRecord.windows;
    FirstFailure(ws, WindowParser("duration", lib), i);
    var k :| 0 <= k <= i && WindowParser("duration", lib)(ws[k]).Fail?
      && ParseAll(ws, WindowParser("duration", lib)).failure == WindowParser("duration", lib)(ws[k]).failure
      && forall j :: 0 <= j < k ==> WindowParser("duration", lib)(ws[j]).Ok?;
    assert LatencyAlertsSpec(slo, methods, lib).failure == ParseWindow(ws[k], "duration", lib).failure;
    assert forall j :: 0 <= j < k ==> ParseWindow(ws[j], "duration", lib).Ok?;
  }

  /** An objectives window that time.ParseDuration rejects fails either block with
      the same configuration error, once what is parsed before it parses. */
  lemma ObjectivesWindowRejected(slo: Slo, methods: map<string, Alerts.AlertMethod>, lib: Lib)
    requires lib.parseTimeDuration(slo.spec.objectives.window).None?
    ensures var block := slo.spec.errorRateRecord;
      block.alertMethod != "" && block.alertMethod in methods
      && (forall w :: w in block.windows ==> ParseWindow(w, "float", lib).Ok?) ==>
        ErrorAlertsSpec(slo, methods, lib)
          == Fail(ConfigError("failed to convert " + slo.spec.objectives.window + " to duration"))
    ensures var block := slo.spec.latencyRecord;
      block.alertMethod != "" && block.alertMethod in methods && slo.spec.objectives.latency.Some?
      && (forall t :: t in slo.spec.objectives.latency.value ==> lib.parseFloat64(t.target).Some?)
      && (forall w :: w in block.windows ==> ParseWindow(w, "duration", lib).Ok?) ==>
        LatencyAlertsSpec(slo, methods, lib)
          == Fail(ConfigError("failed to convert " + slo.spec.objectives.window + " to duration"))
  {
    var errorWindows := slo.spec.errorRateRecord.windows;
    if forall w :: w in errorWindows ==> ParseWindow(w, "float", lib).Ok? {
      forall j | 0 <= j < |errorWindows| ensures WindowParser("float", lib)(errorWindows[j]).Ok? {
        assert errorWindows[j] in errorWindows;
      }
    }
    var latencyWindows := slo.spec.latencyRecord.windows;
    if forall w :: w in latencyWindows ==> ParseWindow(w, "duration", lib).Ok? {
      forall j | 0 <= j < |latencyWindows| ensures WindowParser("duration", lib)(latencyWindows[j]).Ok? {
        assert latencyWindows[j] in latencyWindows;
      }
    }
    if slo.spec.objectives.latency.Some? {
      var declared := slo.spec.objectives.latency.value;
      if forall t :: t in declared ==> lib.parseFloat64(t.target).Some? {
        forall j | 0 <= j < |declared| ensures TargetParser(lib)(declared[j]).Ok? {
          assert declared[j] in declared;
        }
      }
    }
  }

  /** An alert method name that is not registered panics, whatever else the
      resource holds; the error block is checked before the latency block. */
  lemma UnknownMethodPanics(slo: Slo, methods: map<string, Alerts.AlertMethod>, lib: Lib)
    ensures var m := slo.spec.errorRateRecord.alertMethod;
      m != "" && m !in methods ==> AlertRulesSpec(slo, methods, lib) == Fail(InvalidMethod(m))
    ensures var m := slo.spec.latencyRecord.alertMethod;
      m != "" && m !in methods && ErrorAlertsSpec(slo, methods, lib).Ok? ==>
        AlertRulesSpec(slo, methods, lib) == Fail(InvalidMethod(m))
  {
  }

  // ---------------------------------------------------------------------------
  // Building the rules

  /** `rules` realise `specs` one for one, each with its own label and annotation maps. */
  ghost predicate Built(rules: seq<Rule>, specs: seq<MultiWindow.AlertSpec>)
    reads set k | 0 <= k < |rules| :: rules[k].labels
    reads set k | 0 <= k < |rules| :: rules[k].annotations
  {
    && |rules| == |specs|
    && (forall k :: 0 <= k < |rules| ==> MultiWindow.Realises(rules[k], specs[k]))
    && SeparateMaps(rules)
  }

  /** The error-rate block of generateAlertRules. */
  method ErrorAlertRules(slo: Slo, registry: Alerts.Registry, lib: Lib) returns (r: Result<seq<Rule>>)
    ensures r.Fail? <==> ErrorAlertsSpec(slo, registry.methods, lib).Fail?
    ensures r.Fail? ==> r.failure == ErrorAlertsSpec(slo, registry.methods, lib).failure
    ensures r.Ok? ==> Built(r.value, ErrorAlertsSpec(slo, registry.methods, lib).value)
    ensures r.Ok? ==> forall i :: 0 <= i < |r.value| ==> fresh(r.value[i].labels) && fresh(r.value[i].annotations)
  {
    var block := slo.spec.errorRateRecord;
    if block.alertMethod == "" {
      return Ok([]);
    }
    var errorMethod := registry.GetAlertMethod(block.alertMethod);
    if errorMethod.None? {
      return Fail(InvalidMethod(block.alertMethod));
    }
    var windows := ParseEach(block.windows, WindowParser("float", lib));
    if windows.Fail? {
      return Fail(windows.failure);
    }
    var objectivesWindow := lib.parseTimeDuration(slo.spec.objectives.window);
    if objectivesWindow.None? {
      return Fail(ConfigError("failed to convert " + slo.spec.objectives.window + " to duration"));
    }
    var opts := Alerts.AlertErrorOptions(SanitizeString(slo.name), slo.spec.objectives.availability,
      objectivesWindow.value, windows.value, GetShortWindow(block), block.burnRate);
    assert opts == ErrorOptions(slo, windows.value, objectivesWindow.value);
    match errorMethod.value
    case MultiWindowAlgorithm =>
      var errorRules, err := MultiWindow.AlertForError(opts, lib);
      r := Ok(errorRules);
  }

  /** The latency block of generateAlertRules. */
  method LatencyAlertRules(slo: Slo, registry: Alerts.Registry, lib: Lib) returns (r: Result<seq<Rule>>)
    ensures r.Fail? <==> LatencyAlertsSpec(slo, registry.methods, lib).Fail?
    ensures r.Fail? ==> r.failure == LatencyAlertsSpec(slo, registry.methods, lib).failure
    ensures r.Ok? ==> Built(r.value, LatencyAlertsSpec(slo, registry.methods, lib).value)
    ensures r.Ok? ==> forall i :: 0 <= i < |r.value| ==> fresh(r.value[i].labels) && fresh(r.value[i].annotations)
  {
    var block := slo.spec.latencyRecord;
    if block.alertMethod == "" {
      return Ok([]);
    }
    var latencyMethod := registry.GetAlertMethod(block.alertMethod);
    if latencyMethod.None? {
      return Fail(InvalidMethod(block.alertMethod));
    }
    if slo.spec.objectives.latency.None? {
      return Ok([]);
    }
    var targets := ParseEach(slo.spec.objectives.latency.value, TargetParser(lib));
    if targets.Fail? {
      return Fail(targets.failure);
    }
    var windows := ParseEach(block.windows, WindowParser("duration", lib));
    if windows.Fail? {
      return Fail(windows.failure);
    }
    var objectivesWindow := lib.parseTimeDuration(slo.spec.objectives.window);
    if objectivesWindow.None? {
      return Fail(ConfigError("failed to convert " + slo.spec.objectives.window + " to duration"));
    }
    var opts := Alerts.AlertLatencyOptions(SanitizeString(slo.name), targets.value, objectivesWindow.value,
      windows.value, GetShortWindow(block), slo.spec.errorRateRecord.burnRate);
    assert opts == LatencyOptions(slo, targets.value, windows.value, objectivesWindow.value);
    match latencyMethod.value
    case MultiWindowAlgorithm =>
      var latencyRules, err := MultiWindow.AlertForLatency(opts, lib);
      r := Ok(latencyRules);
  }

  /** Two built lists whose maps are pairwise distinct make one built list. */
  lemma BuiltConcat(a: seq<Rule>, specsA: seq<MultiWindow.AlertSpec>, b: seq<Rule>, specsB: seq<MultiWindow.AlertSpec>)
    requires Built(a, specsA) && Built(b, specsB)
    requires forall i, j :: 0 <= i < |a| && 0 <= j < |b| ==>
      && a[i].labels != b[j].labels && a[i].labels != b[j].annotations
      && a[i].annotations != b[j].labels && a[i].annotations != b[j].annotations
    ensures Built(a + b, specsA + specsB)
  {
    var ab := a + b;
    forall i, j | 0 <= i < j < |ab|
      ensures && ab[i].labels != ab[j].labels && ab[i].annotations != ab[j].annotations
              && ab[i].labels != ab[j].annotations && ab[i].annotations != ab[j].labels
    {
      if j < |a| {
      } else if i >= |a| {
        assert ab[i] == b[i - |a|] && ab[j] == b[j - |a|];
      } else {
        assert ab[i] == a[i] && ab[j] == b[j - |a|];
      }
    }
  }

  // ---------------------------------------------------------------------------
  // Metadata

  /** fillMetadata: the namespace label, then every label of the Slo's metadata,
      then the namespace annotation. Through a label map that is also the
      annotation map the annotation write lands in the labels as well. */
  method FillMetadata(rule: Rule, slo: Slo)
    requires rule.labels != null && rule.annotations != null
    modifies rule.labels, rule.annotations
    ensures rule.labels != rule.annotations ==>
      && rule.labels.entries == old(rule.labels.entries)["namespace" := slo.namespace] + slo.labels
      && rule.annotations.entries == old(rule.annotations.entries)["namespace" := slo.namespace]
    ensures rule.labels == rule.annotations ==>
      rule.labels.entries == (old(rule.labels.entries)["namespace" := slo.namespace] + slo.labels)["namespace" := slo.namespace]
  {
    rule.labels.Put("namespace", slo.namespace);
    rule.labels.PutAll(slo.labels);
    rule.annotations.Put("namespace", slo.namespace);
  }

  /** The labels of a finished alerting rule: the severity, the namespace, and the
      Slo's labels, which win over both. */
  function MetadataLabels(severity: string, slo: Slo): (labels: map<string, string>)
    ensures labels.Keys == {"severity", "namespace"} + slo.labels.Keys
    ensures forall k :: k in slo.labels ==> labels[k] == slo.labels[k]
    ensures "namespace" !in slo.labels ==> labels["namespace"] == slo.namespace
    ensures "severity" !in slo.labels ==> labels["severity"] == severity
  {
    MultiWindow.SeverityLabels(severity)["namespace" := slo.namespace] + slo.labels
  }

  /** The annotations of a finished alerting rule. */
  function MetadataAnnotations(severity: string, slo: Slo): map<string, string> {
    MultiWindow.SeverityLabels(severity)["namespace" := slo.namespace]
  }

  /** `r` is the finished alerting rule for `spec`. */
  ghost predicate FilledRule(r: Rule, spec: MultiWindow.AlertSpec, slo: Slo)
    reads r.labels, r.annotations
  {
    && r.record == "" && r.alert == spec.alert && r.expr == spec.expr && r.forDuration == ""
    && r.labels != null && r.annotations != null
    && r.labels.entries == MetadataLabels(spec.severity, slo)
    && r.annotations.entries == MetadataAnnotations(spec.severity, slo)
  }

  ghost predicate Filled(rules: seq<Rule>, specs: seq<MultiWindow.AlertSpec>, slo: Slo)
    reads set k | 0 <= k < |rules| :: rules[k].labels
    reads set k | 0 <= k < |rules| :: rules[k].annotations
  {
    && |rules| == |specs|
    && (forall k :: 0 <= k < |rules| ==> FilledRule(rules[k], specs[k], slo))
    && SeparateMaps(rules)
  }

  /** The fillMetadata loop of generateAlertRules. The loop variable is a copy of
      the rule, but the copy holds the same maps, so the writes reach the rules. */
  method FillAll(rules: seq<Rule>, ghost specs: seq<MultiWindow.AlertSpec>, slo: Slo)
    requires Built(rules, specs)
    modifies set k | 0 <= k < |rules| :: rules[k].labels
    modifies set k | 0 <= k < |rules| :: rules[k].annotations
    ensures Filled(rules, specs, slo)
  {
    for i := 0 to |rules|
      invariant forall k :: 0 <= k < i ==> FilledRule(rules[k], specs[k], slo)
      invariant forall k :: i <= k < |rules| ==> MultiWindow.Realises(rules[k], specs[k])
    {
      FillStep(rules, specs, slo, i);
    }
  }

  /** One iteration of the fillMetadata loop: only the maps of rule `i` change. */
  method FillStep(rules: seq<Rule>, ghost specs: seq<MultiWindow.AlertSpec>, slo: Slo, i: nat)
    requires i < |rules| == |specs| && SeparateMaps(rules)
    requires forall k :: 0 <= k < i ==> FilledRule(rules[k], specs[k], slo)
    requires forall k :: i <= k < |rules| ==> MultiWindow.Realises(rules[k], specs[k])
    modifies rules[i].labels, rules[i].annotations
    ensures forall k :: 0 <= k < i + 1 ==> FilledRule(rules[k], specs[k], slo)
    ensures forall k :: i + 1 <= k < |rules| ==> MultiWindow.Realises(rules[k], specs[k])
  {
    var rule := rules[i];
    FillMetadata(rule, slo);
  }

  /** generateAlertRules: the error-rate alerts, then the latency alerts, each
      given the Slo's namespace and labels. */
  method GenerateAlertRules(slo: Slo, registry: Alerts.Registry, lib: Lib) returns (r: Result<seq<Rule>>)
    ensures r.Fail? <==> AlertRulesSpec(slo, registry.methods, lib).Fail?
    ensures r.Fail? ==> r.failure == AlertRulesSpec(slo, registry.methods, lib).failure
    ensures r.Ok? ==> Filled(r.value, AlertRulesSpec(slo, registry.methods, lib).value, slo)
    ensures r.Ok? ==> forall i :: 0 <= i < |r.value| ==> fresh(r.value[i].labels) && fresh(r.value[i].annotations)
  {
    var errorRules := ErrorAlertRules(slo, registry, lib);
    if errorRules.Fail? {
      return Fail(errorRules.failure);
    }
    var latencyRules := LatencyAlertRules(slo, registry, lib);
    if latencyRules.Fail? {
      return Fail(latencyRules.failure);
    }
    ghost var errorSpecs := ErrorAlertsSpec(slo, registry.methods, lib).value;
    ghost var latencySpecs := LatencyAlertsSpec(slo, registry.methods, lib).value;
    BuiltConcat(errorRules.value, errorSpecs, latencyRules.value, latencySpecs);
    var alertRules := errorRules.value + latencyRules.value;
    FillAll(alertRules, errorSpecs + latencySpecs, slo);
    r := Ok(alertRules);
  }
}

/** GeneratePromRules of pkg/slo/slo.go: the recording groups, then one group of
    alerting rules, wrapped in a PrometheusRule named after the Slo. */
module Generation {
  import opened Common
  import opened Foreign
  import opened GoMaps
  import opened SloTypes
  import opened PromRules
  import opened Recording
  import opened RuleGroups
  import opened AlertRules
  import Alerts
  import MultiWindow

  /** The parts of the PrometheusRule object the engine decides: the metadata
      copied from the Slo and the rule groups. */
  datatype PrometheusRule = PrometheusRule(
    name: string,
    namespace: string,
    labels: map<string, string>,
    groups: seq<RuleGroup>)

  function AlertGroupName(slo: Slo): string {
    "slo:" + SanitizeString(slo.name) + ":alert"
  }

  /** GeneratePromRules: an error of the recording stage is returned first, then
      one of the alerting stage. On success the recording groups are followed by
      a group of all alerting rules, which has no interval. */
  method GeneratePromRules(slo: Slo, registry: Alerts.Registry, lib: Lib) returns (r: Result<PrometheusRule>)
    modifies slo.spec.labels
    ensures LePanics(slo, slo.spec.latencyRecord.buckets) ==> r == Fail(Panic(NilMapWrite))
    ensures !LePanics(slo, slo.spec.latencyRecord.buckets) ==>
      (r.Fail? <==> AlertRulesSpec(slo, registry.methods, lib).Fail?)
    ensures !LePanics(slo, slo.spec.latencyRecord.buckets) && r.Fail? ==>
      r.failure == AlertRulesSpec(slo, registry.methods, lib).failure
    ensures r.Ok? ==>
      && r.value.name == slo.name && r.value.namespace == slo.namespace && r.value.labels == slo.labels
      && |r.value.groups| == |GroupsSpec(slo, lib)| + 1
      && r.value.groups[..|GroupsSpec(slo, lib)|] == GroupsSpec(slo, lib)
      && Last(r.value.groups).name == AlertGroupName(slo)
      && Last(r.value.groups).interval == ""
      && Filled(Last(r.value.groups).rules, AlertRulesSpec(slo, registry.methods, lib).value, slo)
    ensures slo.spec.labels != null ==>
      slo.spec.labels.entries == LeWritten(old(slo.spec.labels.entries), slo, slo.spec.latencyRecord.buckets)
  {
    var ruleGroupRules := GenerateGroupRules(slo, lib);
    if ruleGroupRules.Fail? {
      return Fail(ruleGroupRules.failure);
    }
    var groups := ruleGroupRules.value;
    var ruleAlerts := GenerateAlertRules(slo, registry, lib);
    if ruleAlerts.Fail? {
      return Fail(ruleAlerts.failure);
    }
    groups := groups + [RuleGroup("slo:" + SanitizeString(slo.name) + ":alert", "", ruleAlerts.value)];
    r := Ok(PrometheusRule(slo.name, slo.namespace, slo.labels, groups));
  }

  /** Labelslabels: a fresh map holding the Slo's name under "service", overridden
      by the Slo's own labels. */
  method Labelslabels(slo: Slo) returns (labels: LabelMap)
    ensures fresh(labels)
    ensures labels.entries == map["service" := slo.name] + slo.labels
  {
    labels := new LabelMap(map[]);
    labels.Put("service", slo.name);
    labels.PutAll(slo.labels);
  }

  /** The methods registered by package initialisation. */
  function Registered(): map<string, Alerts.AlertMethod> {
    map["multi-window" := Alerts.MultiWindowAlgorithm]
  }

  const TestErrorExpr: string :=
    "  sum (rate(http_requests_total{job=\"service-a\", status=\"5xx\"}[$window])) /\n        sum (rate(http_requests_total{job=\"service-a\"}[$window]))"

  const TestLatencyExpr: string :=
    "   sum (rate(http_request_duration_seconds_bucket{job=\"service-a\", le=\"$le\"}[$window])) /\n        sum (rate(http_requests_total{job=\"service-a\"}[$window]))"

  /** The Slo of TestSimpleSLOGenerateAlertRules, with `specLabels` as the spec's
      label map. */
  function TestServiceSlo(specLabels: LabelMap?): Slo {
    Slo("test-service", "test-ns", map[],
      SloSpec(
        Objectives("50", Some([SloTypes.LatencyTarget("0.1", "95"), SloTypes.LatencyTarget("0.5", "99")]), "0"),
        ExprBlock("", "", [], None, [], "sum(rate(http_total[$window]))"),
        ExprBlock("multi-window", "", [], None, [],
          TestErrorExpr),
        ExprBlock("multi-window", "", [], None, [],
          TestLatencyExpr),
        ExprBlock("", "", [], None, [], ""),
        specLabels,
        map["message" := "test", "link" := "test", "dashboard" := "test"]))
  }

  /** An Slo with a traffic expression yields the three tier groups. */
  lemma ThreeGroups(slo: Slo, lib: Lib)
    requires slo.spec.trafficRateRecord.expr != ""
    ensures |GroupsSpec(slo, lib)| == 3
  {
    GroupsSpecShape(slo, lib);
  }

  /** An Slo with the registered method on both blocks, no declared windows,
      latency targets that parse and an objectives window that parses: a page and
      a ticket alert for errors, then for latency. */
  lemma FourAlerts(slo: Slo, lib: Lib)
    requires slo.spec.errorRateRecord.alertMethod == "multi-window" && slo.spec.errorRateRecord.windows == []
    requires slo.spec.latencyRecord.alertMethod == "multi-window" && slo.spec.latencyRecord.windows == []
    requires slo.spec.objectives.latency.Some?
    requires forall t :: t in slo.spec.objectives.latency.value ==> lib.parseFloat64(t.target).Some?
    requires lib.parseTimeDuration(slo.spec.objectives.window).Some?
    ensures AlertRulesSpec(slo, Registered(), lib).Ok?
    ensures var specs := AlertRulesSpec(slo, Registered(), lib).value;
      && |specs| == 4
      && specs[0].severity == "page" && specs[1].severity == "ticket"
      && specs[2].severity == "page" && specs[3].severity == "ticket"
  {
    ErrorAlertsDefaultWindows(slo, Registered(), lib);
    LatencyAlertsDefaultWindows(slo, Registered(), lib);
    AlertRulesOrder(slo, Registered(), lib);
  }

  /** GeneratePromRules for such an Slo with a non-nil spec label map and the
      registry of package initialisation: the recording groups and the alert group. */
  method GenerateFourGroups(slo: Slo, registry: Alerts.Registry, lib: Lib) returns (r: Result<PrometheusRule>)
    requires slo.spec.labels != null && registry.methods == Registered()
    requires slo.spec.trafficRateRecord.expr != ""
    requires slo.spec.errorRateRecord.alertMethod == "multi-window" && slo.spec.errorRateRecord.windows == []
    requires slo.spec.latencyRecord.alertMethod == "multi-window" && slo.spec.latencyRecord.windows == []
    requires slo.spec.objectives.latency.Some?
    requires forall t :: t in slo.spec.objectives.latency.value ==> lib.parseFloat64(t.target).Some?
    requires lib.parseTimeDuration(slo.spec.objectives.window).Some?
    modifies slo.spec.labels
    ensures r.Ok? && |r.value.groups| == 4
  {
    ThreeGroups(slo, lib);
    FourAlerts(slo, lib);
    r := GeneratePromRules(slo, registry, lib);
  }

  /** TestSimpleSLOGenerateAlertRules: the generated PrometheusRule has four
      groups. */
  method TestSimpleSloGenerateAlertRules(lib: Lib) returns (r: Result<PrometheusRule>)
    requires lib.parseTimeDuration("0").Some?
    requires lib.parseFloat64("95").Some? && lib.parseFloat64("99").Some?
    ensures r.Ok? && |r.value.groups| == 4
  {
    var registry := MultiWindow.Init();
    var specLabels := new LabelMap(map["team" := "test-team"]);
    var slo := TestServiceSlo(specLabels);
    assert forall t :: t in slo.spec.objectives.latency.value ==> t.target == "95" || t.target == "99";
    r := GenerateFourGroups(slo, registry, lib);
  }
}

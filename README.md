# Prometheus rules from Slo objects: a Dafny model

This project models the rule-generation engine of the Slo operator. The engine turns
an `Slo` custom resource into a prometheus-operator `PrometheusRule` document with
two parts:

* **Recording rules.** For each of the three default aggregation tiers (short, medium,
  daily) and each bucket of a tier, the engine emits traffic, error, latency-quantile
  (p50/p95/p99) and latency-ratio recording rules. Their expressions are the Slo's
  expression templates with `$window`, `$le` and `$quantile` substituted. A tier
  becomes a rule group when it yields at least one rule.
* **Alerting rules.** The alert method registered under the block's `alertMethod`
  builds the alerting rules. The only such method is the multi-window, multi-burn-rate
  method. It emits one alert per severity that has windows (page, then ticket), using burn-rate windows
  taken from a built-in table or derived from declared consumption windows. Each alert
  then receives the Slo's namespace and labels. All alerting rules form one final
  group.

## How the model is built

* `common.dfy` holds the shared types:
  * `Option` and `Result`;
  * `Failure`, which separates an error the Go code returns (`ConfigError`) from a
    `log.Panicf` or runtime panic (`Panic`);
  * `GoMaps.LabelMap`, a Go `map[string]string`. Go maps are references, so it is a
    class whose methods write its `entries`.
* `floats.dfy` models float64 values as reals extended with the infinities and NaN.
  Division by zero therefore needs no precondition.
* `foreign.dfy` (`Lib`) stands for library code whose source is not part of this
  model. Every `Lib` value is a parameter, so every result holds for any behaviour of
  these libraries:
  * `model.ParseDuration`, `time.ParseDuration`, `strconv.ParseFloat`;
  * `model.Duration.String()`;
  * fmt's `%g` and `%.3g`;
  * `labels.Labels.String()`.
* `slo_types.dfy` covers `api/v1alpha1/slo_types.go`: the resource types,
  `DefaultSamples`, `GetShortWindow`, and the one-pass `strings.NewReplacer`
  substitution of `ComputeExpr` and `ComputeQuantile`.
* `prom_rules.dfy` holds the rule and rule-group records. A rule's labels and
  annotations are `LabelMap?`, since a Go map may be nil and may be shared.
* `slo_alerts.dfy` holds the alert-method options and the method registry, a class
  over the package-level `methods` map.
* `slo_multi_window.dfy` covers the burn-rate table, the alert conditions and
  `AlertForError`/`AlertForLatency`. Each loop is a method proved equal to a
  specification function, and lemmas state what those functions guarantee.
* `slo_recording.dfy` covers `generateRules` (module `Recording`) and
  `generateGroupRules` (module `RuleGroups`).
* `slo.dfy` covers `generateAlertRules` and `fillMetadata` (module `AlertRules`), and
  `GeneratePromRules` and `Labelslabels` (module `Generation`).

## Behaviour worth knowing

* **One shared label map.** No recording rule gets its own copy of the label map:
  every rule holds the spec's one map. The `le` write for a latency rule goes into
  that shared map, so once generation ends every rule sees the last latency bucket as
  its `le`.
* **Nil map panic.** When the spec has no label map, a latency expression and at
  least one latency bucket, that write panics. The model reports this as
  `Panic("assignment to entry in nil map")`.
* **Generation writes into the Slo it is given.** The model's methods state how they
  change the spec's label map.
* **Raw tier-group names.** Tier groups are named with the raw Slo name. Only the
  alert group and the rule names use the sanitised name.
* **Duration error wording.** For the error block, a window duration that does not
  parse is reported as "failed to convert ... to float". For the latency block it is
  reported as "... to duration".
* **Out-of-range availability.** An availability outside the float32 range parses to
  an infinity with an error that is ignored, so the error budget becomes an infinity.

## Model

| member | source | states |
|---|---|---|
| GoMaps.LabelMap.Put | pkg/slo/slo.go:296 | a map write changes the entry for one key and nothing else |
| GoMaps.LabelMap.PutAll | pkg/slo/slo.go:206-208 | copying a map in key order of Go's choosing ends as the old map overridden by the source map, for every order |
| SloTypes.DefaultSamples | api/v1alpha1/slo_types.go:26-43 | three tiers with distinct names, each with a non-empty list of distinct buckets |
| SloTypes.GetShortWindow | api/v1alpha1/slo_types.go:129-137 | short windows are off exactly when the flag is present and false |
| SloTypes.MatchAt | api/v1alpha1/slo_types.go:139 | the replacer picks the first pattern in argument order that matches here, and reports no match only when none does |
| SloTypes.Replace | api/v1alpha1/slo_types.go:138-146 | the one-pass strings.NewReplacer substitution; replacements as long as their keys keep the length, and replacing each key by itself is the identity. Its behaviour is stated by the MatchAt contract and the Replace* lemmas |
| SloTypes.ComputeExpr | api/v1alpha1/slo_types.go:138-141 | `$window` and `$le` substituted in one pass; same-length values keep the length, the tokens themselves give the template back. Further properties are the Templating.ComputeExpr* lemmas |
| SloTypes.ComputeQuantile | api/v1alpha1/slo_types.go:143-146 | `$window` and `$quantile` substituted in one pass; same-length values keep the length, the tokens themselves give the template back. Further properties are the Templating.ComputeQuantile* lemmas |
| SloTypes.ReplaceWithoutKeys | api/v1alpha1/slo_types.go:138-141 | a string containing no pattern comes back unchanged |
| SloTypes.ReplaceLeadingKey | api/v1alpha1/slo_types.go:138-141 | a leading pattern is replaced and scanning resumes after it |
| SloTypes.ReplaceLeadingChar | api/v1alpha1/slo_types.go:138-141 | a character where no pattern starts is kept and scanning moves one character on |
| Templating.ComputeExprWithoutTokens | api/v1alpha1/slo_types.go:138-141 | a template without `$window` and `$le` is returned as it is |
| Templating.ComputeExprWindow | api/v1alpha1/slo_types.go:138-141 | a leading `$window` becomes the window and the rest is substituted in the same way |
| Templating.ComputeExprLe | api/v1alpha1/slo_types.go:138-141 | a leading `$le` becomes the bucket boundary and the rest is substituted in the same way |
| Templating.ComputeExprNoRescan | api/v1alpha1/slo_types.go:138-141 | substituted text is not scanned again: a window value that reads `$le` stays `$le` |
| Templating.ComputeQuantileQuantile | api/v1alpha1/slo_types.go:143-146 | a leading `$quantile` becomes the rendered quantile |
| Templating.ComputeQuantileKeepsLe | api/v1alpha1/slo_types.go:143-146 | ComputeQuantile leaves `$le` untouched |
| Alerts.Registry.constructor | pkg/slo/slo_alerts.go:33 | the registry starts empty |
| Alerts.Registry.Register | pkg/slo/slo_alerts.go:35-38 | register returns the method, makes it the one found under the name (replacing an earlier one) and leaves every other name as it was |
| Alerts.Registry.GetAlertMethod | pkg/slo/slo_alerts.go:40-42 | nil exactly for a name never registered, otherwise the registered method |
| MultiWindow.Init | pkg/slo/slo_muti-window.go:214-216 | after package initialisation exactly `multi-window` is registered |
| MultiWindow.DefaultRateWindows | pkg/slo/slo_muti-window.go:37-63 | the built-in table: page 14.4×(1h, 5m) and 6×(6h, 30m), ticket 3×(1d, 2h) and 1×(3d, 6h); every multiplier at least 1 and every short window set |
| MultiWindow.BurnRateMultiplier | pkg/slo/slo_muti-window.go:146-151 | multiplier = (consumption/100)/(t/wHours) with both durations truncated to whole hours, and positive for a positive consumption and positive hours |
| MultiWindow.DeriveWindow | pkg/slo/slo_muti-window.go:149-161 | a derived window holds the multiplier and the rendered duration; its short window is duration/12 when short windows are on and empty when they are off |
| MultiWindow.GenMultiRateWindows | pkg/slo/slo_muti-window.go:139-166 | the loop returns the table of the specification function RateWindows |
| MultiWindow.GroupedKeys | pkg/slo/slo_muti-window.go:145-165 | the derived table has exactly the declared notification names as keys |
| MultiWindow.GroupedEntries | pkg/slo/slo_muti-window.go:148-163 | under each name, the windows declared with that name, derived, in declaration order |
| MultiWindow.EntriesTotal | pkg/slo/slo_muti-window.go:148-163 | over any list of distinct names covering every notification, the per-name window counts (ForNotification, which GroupedEntries shows is what the table holds under each name) add up to the number of declared windows |
| MultiWindow.RateWindowsChoice | pkg/slo/slo_muti-window.go:139-165 | the built-in table is used exactly when no window is declared; otherwise keys, per-key entries and the entry count follow the declared windows |
| MultiWindow.JoinAppend | pkg/slo/slo_muti-window.go:185 | joining one more part appends the separator and the part |
| MultiWindow.AnyOfCases | pkg/slo/slo_muti-window.go:181-185 | no condition gives the empty string, one is returned unchanged, each further one is added with " or " |
| MultiWindow.MultiBurnRate | pkg/slo/slo_muti-window.go:168-186 | the loop builds one condition per window in order, `(long and short)` when a short window exists, combined as AnyOf states |
| MultiWindow.LatencyBound | pkg/slo/slo_muti-window.go:195 | the bound is 1 - ((100 - target)/100 * multiplier), below 1 for a target below 100 and a positive multiplier |
| MultiWindow.TargetConditions | pkg/slo/slo_muti-window.go:193-204 | one condition per window for a target, in window order |
| MultiWindow.LatencyConditionsLength | pkg/slo/slo_muti-window.go:192-205 | targets times windows conditions |
| MultiWindow.LatencyConditionAt | pkg/slo/slo_muti-window.go:192-205 | the condition at i*\|windows\|+j is target i with window j: targets outside, windows inside |
| MultiWindow.NoTargetsNoExpr | pkg/slo/slo_muti-window.go:188-212 | no latency target gives the empty expression |
| MultiWindow.AppendTargetConditions | pkg/slo/slo_muti-window.go:193-204 | the inner loop appends the target's conditions |
| MultiWindow.MultiBurnRateLatency | pkg/slo/slo_muti-window.go:188-212 | the nested loops build the conditions of every target with every window, combined as AnyOf states |
| MultiWindow.SeverityAlerts | pkg/slo/slo_muti-window.go:69-99 | no more alerts than listed severities, each for a listed severity that has windows, named prefix + severity, with its expression built from that severity's windows |
| MultiWindow.SeverityAlertsComplete | pkg/slo/slo_muti-window.go:69-99 | every listed severity that has windows gets an alert |
| MultiWindow.SeverityAlertsOrdered | pkg/slo/slo_muti-window.go:69-99 | over distinct severities, alerts come in the order the severities are listed, and no severity has two alerts |
| MultiWindow.PageThenTicket | pkg/slo/slo_muti-window.go:69-72 | one alert for page and one for ticket when each has windows, page first; no other notification name yields an alert |
| MultiWindow.ErrorBudget | pkg/slo/slo_muti-window.go:74-83 | the budget is 1 - availability/100; a syntactically invalid availability counts as 0, giving 1, and an out-of-range one as ±Inf, giving ∓Inf |
| MultiWindow.NewAlertRule | pkg/slo/slo_muti-window.go:86-98 | an alerting rule with new label and annotation maps, each holding only the severity |
| MultiWindow.ErrorAlert | pkg/slo/slo_muti-window.go:74-98 | the error alert of one severity: its name, its expression over that severity's windows, its own maps |
| MultiWindow.LatencyAlert | pkg/slo/slo_muti-window.go:111-133 | the latency alert of one severity: its name, its expression over that severity's windows, its own maps |
| MultiWindow.AlertForError | pkg/slo/slo_muti-window.go:65-101 | the rules realise ErrorAlertSpecs one for one, every map is new and distinct, and the error is nil |
| MultiWindow.AlertForLatency | pkg/slo/slo_muti-window.go:103-137 | the rules realise LatencyAlertSpecs one for one, every map is new and distinct, and the error is nil |
| Recording.SanitizeString | pkg/slo/slo.go:305-309 | every `-` becomes `_`, no other character changes, the length is kept and no `-` remains |
| Recording.SanitizeIdempotent | pkg/slo/slo.go:305-309 | sanitising twice is sanitising once |
| Recording.QuantilesOrdered | pkg/slo/slo.go:31-47 | three quantiles p50, p95, p99 with distinct names and values strictly between 0 and 1, increasing |
| Recording.BucketRulesShared | pkg/slo/slo.go:254-303 | a bucket yields [traffic] + [errors] + 3·[quantile] + \|buckets\|·[latency] rules, all recording rules holding the spec's one label map |
| Recording.BucketRulesHead | pkg/slo/slo.go:256-286 | traffic first, then errors, then p50, p95 and p99, with their record names |
| Recording.BucketRulesLatency | pkg/slo/slo.go:288-300 | then one latency rule per latency bucket in order, all with the same record name whatever the `le` |
| Recording.LeWritten | pkg/slo/slo.go:296 | the shared map ends with `le` set to the last latency bucket when the latency expression is set and there are buckets, and no other key changes; otherwise the map is exactly as it was |
| Recording.LeWrittenTwice | pkg/slo/slo.go:296 | writing the last bucket again leaves the map as it is |
| Recording.AppendQuantileRules | pkg/slo/slo.go:276-286 | the quantile loop appends the p50, p95 and p99 rules |
| Recording.AppendLatencyRules | pkg/slo/slo.go:288-300 | the latency loop appends one rule per bucket and writes `le` into the shared map, panicking exactly when that map is nil and there is a bucket |
| Recording.GenerateRules | pkg/slo/slo.go:254-303 | generateRules returns BucketRules or the nil-map panic, and leaves the shared map as LeWritten states |
| RuleGroups.TierRulesLength | pkg/slo/slo.go:233-235 | a tier yields \|buckets\| times the per-bucket count of rules |
| RuleGroups.TierRulesNonEmpty | pkg/slo/slo.go:233-237 | a tier with buckets yields rules exactly when one bucket does |
| RuleGroups.KeptGroupsAll | pkg/slo/slo.go:225-240 | over tiers with buckets, either every tier's group is kept, in tier order, or none is |
| RuleGroups.KeptGroupsShape | pkg/slo/slo.go:225-240 | kept groups are named `slo:<raw name>:<tier>` with the tier's interval and \|buckets\| times the per-bucket count of rules |
| RuleGroups.GroupsSpecShape | pkg/slo/slo.go:214-243 | three groups when a bucket yields a rule, none otherwise (in particular when all four expressions are empty) |
| RuleGroups.TierShared | pkg/slo/slo.go:233-235 | every rule of a tier holds the spec's one label map and is a recording rule |
| RuleGroups.KeptShared | pkg/slo/slo.go:225-240 | every rule of every kept tier group holds the spec's one label map |
| RuleGroups.GroupsShareLabels | pkg/slo/slo.go:214-243 | no recording rule of the document gets a label map of its own: all hold the spec's map |
| RuleGroups.GenerateTierRules | pkg/slo/slo.go:233-235 | the bucket loop returns TierRules or the nil-map panic |
| RuleGroups.GenerateTierGroups | pkg/slo/slo.go:225-240 | the tier loop returns KeptGroups or the nil-map panic |
| RuleGroups.GenerateGroupRules | pkg/slo/slo.go:214-243 | generateGroupRules returns GroupsSpec, or the panic exactly when the spec's label map is nil and a latency rule is due; the map ends as LeWritten states |
| AlertRules.ParseAll | pkg/slo/slo.go:96-114 | parsing succeeds exactly when every element parses, and then yields each parsed element in order |
| AlertRules.ParseAllFailure | pkg/slo/slo.go:96-114 | the error reported is that of the first element that does not parse |
| AlertRules.ParseEach | pkg/slo/slo.go:96-114 | the parsing loops (windows, targets) return what ParseAll specifies |
| AlertRules.ParseWindow | pkg/slo/slo.go:97-114 | a window parses exactly when its duration and consumption do; a bad duration is reported first, "to float" or "to duration" as the block says, then a bad consumption "to float" |
| AlertRules.ParseTarget | pkg/slo/slo.go:143-155 | a target parses exactly when its value does, keeping its `le`; otherwise "failed to convert <target> to float" |
| AlertRules.ObjectivesWindow | pkg/slo/slo.go:116-119 | the objectives window parses exactly when time.ParseDuration accepts it; otherwise "failed to convert <window> to duration" |
| AlertRules.FirstFailure | pkg/slo/slo.go:96-114 | when element i does not parse, parsing fails with the error of an element at or before i, every earlier one parsing |
| AlertRules.ErrorWindowRejected | pkg/slo/slo.go:97-106 | a window that does not parse makes the error block fail with a configuration error, that of the first bad window |
| AlertRules.LatencyTargetRejected | pkg/slo/slo.go:141-149 | a latency target that does not parse fails the latency block with a configuration error naming the first bad target |
| AlertRules.LatencyWindowRejected | pkg/slo/slo.go:157-168 | once the targets parse, a bad latency window fails the block with the configuration error of the first bad window |
| AlertRules.ObjectivesWindowRejected | pkg/slo/slo.go:177-180 | an objectives window that does not parse fails the latency block, and likewise the error block (lines 116-119), once the inputs parsed before it parse, with "failed to convert <window> to duration" |
| AlertRules.UnknownMethodPanics | pkg/slo/slo.go:90-93 | an alert method name that is not registered panics, the error block's before the latency block's |
| AlertRules.LatencyAlertsNeedMethodAndObjectives | pkg/slo/slo.go:135-141 | without a latency alert method, or with a registered one but no latency objectives, the latency block yields no alert and no error |
| AlertRules.AlertRulesOrder | pkg/slo/slo.go:86-202 | the error block's failure hides the latency block's; without failures the error alerts come before the latency alerts |
| AlertRules.ErrorAlertsNamed | pkg/slo/slo.go:121-132 | at most two error alerts, page or ticket, named `slo:<sanitised>.errors.<severity>` |
| AlertRules.LatencyAlertsNamed | pkg/slo/slo.go:182-193 | at most two latency alerts, page or ticket, named `slo:<sanitised>.latency.<severity>` |
| AlertRules.ErrorAlertsDefaultWindows | pkg/slo/slo.go:116-132 | with a registered method, no declared window and a parsing objectives window: a page and a ticket error alert |
| AlertRules.LatencyAlertsDefaultWindows | pkg/slo/slo.go:141-193 | the same for latency once the objectives declare targets that parse |
| AlertRules.ErrorAlertRules | pkg/slo/slo.go:90-133 | the error block fails exactly as ErrorAlertsSpec says, and otherwise returns rules realising its alerts with new, distinct maps |
| AlertRules.LatencyAlertRules | pkg/slo/slo.go:135-195 | the latency block fails exactly as LatencyAlertsSpec says, and otherwise returns rules realising its alerts with new, distinct maps |
| AlertRules.FillMetadata | pkg/slo/slo.go:204-212 | the labels gain the namespace and then the Slo's labels, the annotations the namespace; a map shared by both receives all three writes |
| AlertRules.MetadataLabels | pkg/slo/slo.go:205-208 | a filled alert's labels are severity, namespace and the Slo's labels, the Slo's labels winning |
| AlertRules.FillAll | pkg/slo/slo.go:197-199 | the loop gives every alerting rule its metadata; the copy of the rule in the loop variable shares its maps |
| AlertRules.GenerateAlertRules | pkg/slo/slo.go:86-202 | generateAlertRules fails exactly as AlertRulesSpec says, and otherwise returns those alerts with the Slo's metadata and separate maps |
| Generation.GeneratePromRules | pkg/slo/slo.go:49-84 | the recording stage's panic comes first, then the alerting stage's error; on success the Slo's name, namespace and labels, the recording groups, then the alert group `slo:<sanitised>:alert` without interval |
| Generation.Labelslabels | pkg/slo/slo.go:245-252 | a new map with `service` = the Slo's name, overridden by the Slo's labels |
| Generation.ThreeGroups | pkg/slo/slo.go:225-240 | an Slo with a traffic expression yields the three tier groups |
| Generation.FourAlerts | pkg/slo/slo.go:86-202 | both blocks on `multi-window` with default windows give four alerts: page and ticket for errors, then for latency |
| Generation.GenerateFourGroups | pkg/slo/slo.go:49-84 | such an Slo yields a document with four groups |
| Generation.TestSimpleSloGenerateAlertRules | pkg/slo/slo_test.go:10-58 | the test's Slo yields four groups, provided its window "0" and targets "95" and "99" parse |

## Left out

- `Slo.labels`, the resource's own metadata labels, is modelled as a value, while the spec's label map is a reference. In Go both are maps, so a caller could pass one map as both. The `le` write would then reach the alerts' labels through fillMetadata and the document's labels. The model does not capture that aliasing; resources decoded from the API server never share maps.
- controllers/slo_controller.go is not part of this model: the reconcile loop is Kubernetes client I/O.
- Kubernetes metadata: the model keeps the document's name, namespace and labels and leaves out `Kind` and the `APIVersion` string (" monitoring.coreos.com/v1", with its leading space).
- Floating point: values are exact reals. The model does not capture float64 or float32 rounding, signed zero, or the rounding of a parsed float32 availability.
- Library behaviour (duration and float parsing, duration rendering, `%g`/`%.3g`, label-set rendering) is taken as a parameter, so each result holds for every behaviour of these functions. Integer overflow of `time.Duration` is not modelled.
- The debug `fmt.Println` in AlertForError is left out; it is output only.
- MultiWindow.AlertForError: the Go method returns an error value the model fixes to nil. The `log.Panicf` on that error in generateAlertRules cannot happen and is not modelled.
- MultiWindow.AlertForLatency: the same holds for its error value and the panic after it.
- The `BurnRate` field reaches the alert options but is never read. Its only visible effect is that the latency options take the error block's value, which the model keeps.
- AlertRules.FillMetadata requires both maps to be non-nil. Every alerting rule the alert methods build has both, so fillMetadata's nil-map panic cannot be reached and is not modelled.
- Generation.GeneratePromRules: an alert group without rules holds an empty sequence. Go holds a nil slice there, which encodes as `rules: null`; the model does not tell nil from empty.
- The spec's `annotations` map is never read by the engine and has no effect in the model.

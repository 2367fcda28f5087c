/** The prometheus-operator rule document types the engine fills in. Labels and
    annotations are Go maps, hence references that may be nil. */
module PromRules {
  import opened GoMaps

  /** A recording rule sets `record`; an alerting rule sets `alert`. */
  datatype Rule = Rule(
    record: string,
    alert: string,
    expr: string,
    forDuration: string,
    labels: LabelMap?,
    annotations: LabelMap?)

  /** `interval` is empty when the group does not set one. */
  datatype RuleGroup = RuleGroup(name: string, interval: string, rules: seq<Rule>)

  /** Every rule has its own non-nil label and annotation maps: no two of them alias. */
  ghost predicate SeparateMaps(rules: seq<Rule>) {
    && (forall i :: 0 <= i < |rules| ==>
          rules[i].labels != null && rules[i].annotations != null && rules[i].labels != rules[i].annotations)
    && (forall i, j :: 0 <= i < j < |rules| ==>
          && rules[i].labels != rules[j].labels && rules[i].annotations != rules[j].annotations
          && rules[i].labels != rules[j].annotations && rules[i].annotations != rules[j].labels)
  }
}

/** The upstream Prometheus rule-file structures (package `rulefmt`) as they
    reach the service after parsing.

    A YAML scalar node is represented by its text value, and a
    `model.Duration` by the string its `String()` method produces: the
    formatting belongs to Prometheus and is not part of this model. */
module RuleFmt {

  /** One alerting or recording rule (`rulefmt.RuleNode`). */
  datatype RuleNode = RuleNode(
    record: string,
    alert: string,
    expr: string,
    forDuration: string,
    labels: map<string, string>,
    annotations: map<string, string>)

  /** A named group of rules with its evaluation interval (`rulefmt.RuleGroup`). */
  datatype RuleGroup = RuleGroup(
    name: string,
    interval: string,
    rules: seq<RuleNode>)

  /** The unit submitted per request (`rulefmt.RuleGroups`). */
  datatype RuleGroups = RuleGroups(groups: seq<RuleGroup>)
}

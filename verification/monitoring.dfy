/** The Prometheus-Operator custom resource (package `monitoring/v1`) and the
    Kubernetes object metadata it carries. */
module Monitoring {

  /** Kubernetes' `intstr.IntOrString`: a value holding either an integer or a
      string. The service always produces the string form. */
  datatype IntOrString = FromInt(intVal: int) | FromString(strVal: string)

  datatype Rule = Rule(
    record: string,
    alert: string,
    expr: IntOrString,
    forDuration: string,
    labels: map<string, string>,
    annotations: map<string, string>)

  datatype RuleGroup = RuleGroup(
    name: string,
    interval: string,
    rules: seq<Rule>)

  datatype PrometheusRuleSpec = PrometheusRuleSpec(groups: seq<RuleGroup>)

  /** The identity of a namespaced object (`types.NamespacedName`). */
  datatype ObjectKey = ObjectKey(namespace: string, name: string)

  /** The part of `metav1.ObjectMeta` the service reads or writes. */
  datatype ObjectMeta = ObjectMeta(
    name: string,
    namespace: string,
    annotations: map<string, string>,
    labels: map<string, string>,
    resourceVersion: string)

  datatype PrometheusRule = PrometheusRule(meta: ObjectMeta, spec: PrometheusRuleSpec)
  {
    function Key(): ObjectKey {
      ObjectKey(meta.namespace, meta.name)
    }

    /** The same object carrying the given opaque version token. */
    function WithVersion(version: string): PrometheusRule {
      this.(meta := meta.(resourceVersion := version))
    }
  }
}

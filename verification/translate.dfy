/** Translation of parsed rule-file groups into the operator's rule groups
    (`kubernetizeRuleGroups` and `kubernetizeRules` in service/service.go). */
module Translate {
  import RuleFmt
  import opened Monitoring

  /** How `model.Duration` formats a zero duration. */
  const ZeroDuration: string := "0s"

  /** The zero-duration quirk: the operator's schema wants an empty string
      where Prometheus formats "0s"; every other formatted value is kept. */
  function NormalizeDuration(formatted: string): (r: string)
    ensures r != ZeroDuration
    ensures formatted != ZeroDuration ==> r == formatted
    ensures r == "" <==> formatted == ZeroDuration || formatted == ""
  {
    if formatted == ZeroDuration then "" else formatted
  }

  /** The field-by-field correspondence between a parsed rule and its
      translation. */
  predicate RuleTranslated(src: RuleFmt.RuleNode, dst: Rule) {
    && dst.record == src.record
    && dst.alert == src.alert
    && dst.expr == FromString(src.expr)
    && dst.forDuration == NormalizeDuration(src.forDuration)
    && dst.labels == src.labels
    && dst.annotations == src.annotations
  }

  /** `dst` holds exactly one translated rule per rule of `src`, in order. */
  predicate RulesTranslated(src: seq<RuleFmt.RuleNode>, dst: seq<Rule>) {
    && |dst| == |src|
    && forall j :: 0 <= j < |src| ==> RuleTranslated(src[j], dst[j])
  }

  predicate GroupTranslated(src: RuleFmt.RuleGroup, dst: RuleGroup) {
    && dst.name == src.name
    && dst.interval == NormalizeDuration(src.interval)
    && RulesTranslated(src.rules, dst.rules)
  }

  /** `dst` holds exactly one translated group per group of `src`, in order. */
  predicate GroupsTranslated(src: seq<RuleFmt.RuleGroup>, dst: seq<RuleGroup>) {
    && |dst| == |src|
    && forall i :: 0 <= i < |src| ==> GroupTranslated(src[i], dst[i])
  }

  function KubernetizeRule(rule: RuleFmt.RuleNode): (r: Rule)
    ensures RuleTranslated(rule, r)
  {
    Rule(rule.record, rule.alert, FromString(rule.expr),
         NormalizeDuration(rule.forDuration), rule.labels, rule.annotations)
  }

  function KubernetizeRules(rules: seq<RuleFmt.RuleNode>): (r: seq<Rule>)
    ensures RulesTranslated(rules, r)
  {
    if |rules| == 0 then []
    else [KubernetizeRule(rules[0])] + KubernetizeRules(rules[1..])
  }

  function KubernetizeRuleGroups(groups: seq<RuleFmt.RuleGroup>): (r: seq<RuleGroup>)
    ensures GroupsTranslated(groups, r)
  {
    if |groups| == 0 then []
    else
      var group := groups[0];
      [RuleGroup(group.name, NormalizeDuration(group.interval), KubernetizeRules(group.rules))]
        + KubernetizeRuleGroups(groups[1..])
  }

  /** A translated rule is determined by its source: the correspondence is a
      function. */
  lemma RuleTranslatedUnique(src: RuleFmt.RuleNode, dst: Rule)
    requires RuleTranslated(src, dst)
    ensures dst == KubernetizeRule(src)
  {
  }

  lemma {:induction false} RulesTranslatedUnique(src: seq<RuleFmt.RuleNode>, dst: seq<Rule>)
    requires RulesTranslated(src, dst)
    ensures dst == KubernetizeRules(src)
  {
    var out := KubernetizeRules(src);
    forall j | 0 <= j < |src|
      ensures dst[j] == out[j]
    {
      RuleTranslatedUnique(src[j], dst[j]);
      RuleTranslatedUnique(src[j], out[j]);
    }
  }

  /** The output of the translator is exactly the sequence of groups that
      correspond, one by one and in order, to the input groups. */
  lemma {:induction false} KubernetizeRuleGroupsCharacterized(src: seq<RuleFmt.RuleGroup>, dst: seq<RuleGroup>)
    ensures dst == KubernetizeRuleGroups(src) <==> GroupsTranslated(src, dst)
  {
    var out := KubernetizeRuleGroups(src);
    if GroupsTranslated(src, dst) {
      forall i | 0 <= i < |src|
        ensures dst[i] == out[i]
      {
        RulesTranslatedUnique(src[i].rules, dst[i].rules);
        RulesTranslatedUnique(src[i].rules, out[i].rules);
      }
    }
  }

  /** Translation distributes over concatenation: no reordering, no merging,
      no deduplication across groups. */
  lemma KubernetizeRuleGroupsAppend(a: seq<RuleFmt.RuleGroup>, b: seq<RuleFmt.RuleGroup>)
    ensures KubernetizeRuleGroups(a + b) == KubernetizeRuleGroups(a) + KubernetizeRuleGroups(b)
  {
    var ka, kb := KubernetizeRuleGroups(a), KubernetizeRuleGroups(b);
    forall i | 0 <= i < |a + b|
      ensures GroupTranslated((a + b)[i], (ka + kb)[i])
    {
      if i < |a| {
        assert (a + b)[i] == a[i] && (ka + kb)[i] == ka[i];
      } else {
        assert (a + b)[i] == b[i - |a|] && (ka + kb)[i] == kb[i - |a|];
      }
    }
    KubernetizeRuleGroupsCharacterized(a + b, ka + kb);
  }

  /** Normalising an already normalised duration changes nothing. */
  lemma NormalizeDurationIdempotent(formatted: string)
    ensures NormalizeDuration(NormalizeDuration(formatted)) == NormalizeDuration(formatted)
  {
  }

  /** No duration field of the translator's output is ever "0s". */
  lemma NoZeroDurationInOutput(groups: seq<RuleFmt.RuleGroup>)
    ensures forall i :: 0 <= i < |KubernetizeRuleGroups(groups)| ==>
      KubernetizeRuleGroups(groups)[i].interval != ZeroDuration
    ensures forall i, j :: 0 <= i < |KubernetizeRuleGroups(groups)| && 0 <= j < |KubernetizeRuleGroups(groups)[i].rules| ==>
      KubernetizeRuleGroups(groups)[i].rules[j].forDuration != ZeroDuration
  {
  }
}

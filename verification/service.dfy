/** `EnsurePrometheusRule` (service/service.go): resolve the cluster of the
    pool, obtain a client for it, then reconcile the rule object there.

    The clusters known to the platform and the contents of each target
    cluster are parameters; the outcome of the injected client getter is a
    fault parameter. */
module Service {
  import opened Wrappers
  import RuleFmt
  import opened Monitoring
  import opened Translate
  import opened PoolCluster
  import opened Reconcile

  /** The objects stored in each target cluster, by cluster name; a cluster
      absent from the map holds no object. */
  type Fleet = map<string, Store>

  function StoreOf(fleet: Fleet, name: string): Store {
    if name in fleet then fleet[name] else map[]
  }

  datatype ServiceError =
    | ResolveFailed(resolveError: ResolveError)
    | ClientFailed(reason: string)
    | ApiFailed(apiError: ApiError)

  datatype Ensured = Ensured(fleet: Fleet, err: Option<ServiceError>)

  function EnsurePrometheusRule(clusters: seq<Cluster>, pool: string, ruleName: string,
                                ruleGroups: RuleFmt.RuleGroups, fleet: Fleet,
                                clientFault: Option<string>, server: ServerBehaviour): (e: Ensured)
    ensures GetPoolCluster(clusters, pool).Failure? ==>
      e == Ensured(fleet, Some(ResolveFailed(NoClusterFound(pool))))
    ensures GetPoolCluster(clusters, pool).Success? && clientFault.Some? ==>
      e == Ensured(fleet, Some(ClientFailed(clientFault.value)))
    ensures e.err.Some? ==> e.fleet == fleet
    // Kubernetes API failures are returned as they are; nothing else fails
    ensures e.err.None? <==>
      GetPoolCluster(clusters, pool).Success? && clientFault.None?
      && server.getFault.None? && server.writeFault.None?
    ensures GetPoolCluster(clusters, pool).Success? && clientFault.None? && e.err.Some? ==>
      e.err == Some(ApiFailed(Failed(
        if server.getFault.Some? then server.getFault.value else server.writeFault.value)))
    ensures e.err.None? ==>
      && GetPoolCluster(clusters, pool).Success?
      && var target := GetPoolCluster(clusters, pool).value;
      && IsKubernetes(target)
      && target in clusters
      && target.name in e.fleet
      && HoldsDesired(e.fleet[target.name], pool, ruleName, ruleGroups.groups)
      && SameElsewhere(StoreOf(fleet, target.name), e.fleet[target.name], RuleKey(pool, ruleName))
      && e.fleet.Keys == fleet.Keys + {target.name}
      && forall n :: n in fleet && n != target.name ==> e.fleet[n] == fleet[n]
  {
    match GetPoolCluster(clusters, pool)
    case Failure(cause) => Ensured(fleet, Some(ResolveFailed(cause)))
    case Success(target) =>
      if clientFault.Some? then Ensured(fleet, Some(ClientFailed(clientFault.value)))
      else
        var step := ReconcileRule(StoreOf(fleet, target.name), pool, ruleName, ruleGroups.groups, server);
        match step.err
        case Some(cause) => Ensured(fleet, Some(ApiFailed(cause)))
        case None => Ensured(fleet[target.name := step.store], None)
  }

  /** The platform of the repository's tests: one Kubernetes cluster serving
      the pool "fake-pool". */
  function TestClusters(): seq<Cluster> {
    [Cluster("cluster-1", KubernetesProvisioner, false, ["http://cluste01"], ["fake-pool"])]
  }

  /** The request of the repository's tests: one group with one recording
      rule, both durations left at zero. */
  function TestRuleGroups(): RuleFmt.RuleGroups {
    RuleFmt.RuleGroups([
      RuleFmt.RuleGroup("fake-rule-group", ZeroDuration, [
        RuleFmt.RuleNode("record", "", "up > 0", ZeroDuration, map[], map[])])])
  }

  /** The spec the tests expect: the zero durations appear as empty strings. */
  function ExpectedSpec(): PrometheusRuleSpec {
    PrometheusRuleSpec([
      RuleGroup("fake-rule-group", "", [
        Rule("record", "", FromString("up > 0"), "", map[], map[])])])
  }

  /** The expected spec is what the translator makes of the test request. */
  lemma ExpectedSpecIsTranslation()
    ensures KubernetizeRuleGroups(TestRuleGroups().groups) == ExpectedSpec().groups
  {
    var groups := TestRuleGroups().groups;
    var expected := ExpectedSpec().groups;
    assert RuleTranslated(groups[0].rules[0], expected[0].rules[0]);
    assert GroupTranslated(groups[0], expected[0]);
    KubernetizeRuleGroupsCharacterized(groups, expected);
  }

  /** Creation scenario: on an empty cluster the object is created with the
      management annotations, the pool label and the translated spec. */
  lemma EnsureCreationScenario(server: ServerBehaviour)
    requires server.getFault.None? && server.writeFault.None?
    ensures
      var e := EnsurePrometheusRule(TestClusters(), "fake-pool", "fake-rule-name", TestRuleGroups(), map[], None, server);
      var key := ObjectKey("tsuru-fake-pool", "fake-rule-name");
      && e.err.None?
      && "cluster-1" in e.fleet && key in e.fleet["cluster-1"]
      && e.fleet["cluster-1"][key].meta.annotations ==
           map["app.kubernetes.io/managed-by" := "tsuru", "app.kubernetes.io/part-of" := "tsuru-prometheus-api"]
      && e.fleet["cluster-1"][key].meta.labels == map["tsuru.io/pool" := "fake-pool"]
      && e.fleet["cluster-1"][key].spec == ExpectedSpec()
  {
    var clusters := TestClusters();
    FirstServingClusterWins(clusters, "fake-pool", 0);
    var groups := TestRuleGroups().groups;
    ExpectedSpecIsTranslation();
    var e := EnsurePrometheusRule(clusters, "fake-pool", "fake-rule-name", TestRuleGroups(), map[], None, server);
    var key := ObjectKey("tsuru-fake-pool", "fake-rule-name");
    assert RuleKey("fake-pool", "fake-rule-name") == key;
    KubernetizeRuleGroupsCharacterized(groups, e.fleet["cluster-1"][key].spec.groups);
  }

  /** Update scenario: an existing object with another expression is
      overwritten with the translated spec and the management metadata. */
  lemma EnsureUpdateScenario(server: ServerBehaviour, version: string)
    requires server.getFault.None? && server.writeFault.None?
    ensures
      var key := ObjectKey("tsuru-fake-pool", "fake-rule-name");
      var existing := PrometheusRule(
        ObjectMeta("fake-rule-name", "tsuru-fake-pool", map[], map[], version),
        PrometheusRuleSpec([RuleGroup("fake-rule-group", "", [
          Rule("record", "", FromString("tobereplaced > 0"), "", map[], map[])])]));
      var fleet := map["cluster-1" := map[key := existing]];
      var e := EnsurePrometheusRule(TestClusters(), "fake-pool", "fake-rule-name", TestRuleGroups(), fleet, None, server);
      && e.err.None?
      && e.fleet["cluster-1"][key].meta.annotations ==
           map["app.kubernetes.io/managed-by" := "tsuru", "app.kubernetes.io/part-of" := "tsuru-prometheus-api"]
      && e.fleet["cluster-1"][key].meta.labels == map["tsuru.io/pool" := "fake-pool"]
      && e.fleet["cluster-1"][key].spec == ExpectedSpec()
  {
    var clusters := TestClusters();
    FirstServingClusterWins(clusters, "fake-pool", 0);
    var groups := TestRuleGroups().groups;
    ExpectedSpecIsTranslation();
    var key := ObjectKey("tsuru-fake-pool", "fake-rule-name");
    var existing := PrometheusRule(
      ObjectMeta("fake-rule-name", "tsuru-fake-pool", map[], map[], version),
      PrometheusRuleSpec([RuleGroup("fake-rule-group", "", [
        Rule("record", "", FromString("tobereplaced > 0"), "", map[], map[])])]));
    var fleet := map["cluster-1" := map[key := existing]];
    var e := EnsurePrometheusRule(clusters, "fake-pool", "fake-rule-name", TestRuleGroups(), fleet, None, server);
    assert RuleKey("fake-pool", "fake-rule-name") == key;
    KubernetizeRuleGroupsCharacterized(groups, e.fleet["cluster-1"][key].spec.groups);
  }
}

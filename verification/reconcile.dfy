/** The reconcile step of `EnsurePrometheusRule` (service/service.go): build
    the desired PrometheusRule for a pool, read the current object, then
    create it or update it with the current version token.

    The target cluster is a map from object identity to object. The API
    server is modelled by what the service relies on: creating an existing
    object fails, updating needs the stored version token, and every
    accepted write stores the object under a token the server issues. Any
    other failure of a call (authorisation, connectivity, a malformed reply)
    is an injected fault. */
module Reconcile {
  import opened Wrappers
  import RuleFmt
  import opened Monitoring
  import opened Translate

  type Store = map<ObjectKey, PrometheusRule>

  const NamespacePrefix: string := "tsuru-"
  const ManagedByKey: string := "app.kubernetes.io/managed-by"
  const PartOfKey: string := "app.kubernetes.io/part-of"
  const PoolLabelKey: string := "tsuru.io/pool"

  /** The annotations marking an object as managed by this service. */
  function ManagedAnnotations(): map<string, string> {
    map[ManagedByKey := "tsuru", PartOfKey := "tsuru-prometheus-api"]
  }

  function PoolLabels(pool: string): map<string, string> {
    map[PoolLabelKey := pool]
  }

  /** Where the rule `ruleName` of `pool` lives. */
  function RuleKey(pool: string, ruleName: string): ObjectKey {
    ObjectKey(NamespacePrefix + pool, ruleName)
  }

  /** The object the service wants to exist for `(pool, ruleName, groups)`. */
  function DesiredPrometheusRule(pool: string, ruleName: string, groups: seq<RuleFmt.RuleGroup>): (d: PrometheusRule)
    ensures d.Key() == RuleKey(pool, ruleName)
    ensures d.meta.annotations == ManagedAnnotations()
    ensures d.meta.labels == PoolLabels(pool)
    ensures GroupsTranslated(groups, d.spec.groups)
    ensures d.meta.resourceVersion == ""
  {
    PrometheusRule(
      ObjectMeta(ruleName, NamespacePrefix + pool, ManagedAnnotations(), PoolLabels(pool), ""),
      PrometheusRuleSpec(KubernetizeRuleGroups(groups)))
  }

  /** Distinct (pool, rule name) pairs never share an object: the namespace
      prefix is injective. */
  lemma RuleKeyInjective(pool1: string, name1: string, pool2: string, name2: string)
    requires RuleKey(pool1, name1) == RuleKey(pool2, name2)
    ensures pool1 == pool2 && name1 == name2
  {
    var n := |NamespacePrefix|;
    assert pool1 == (NamespacePrefix + pool1)[n..];
    assert pool2 == (NamespacePrefix + pool2)[n..];
  }

  /** Faults and tokens of one request against the API server. */
  datatype ServerBehaviour = ServerBehaviour(
    getFault: Option<string>,
    writeFault: Option<string>,
    issuedVersion: string)

  datatype ApiError =
    | ObjectNotFound(key: ObjectKey)
    | AlreadyExists(key: ObjectKey)
    | Conflict(key: ObjectKey)
    | Failed(reason: string)

  datatype GetOutcome = Found(obj: PrometheusRule) | NotFound | OtherErr(err: ApiError)

  function Get(store: Store, key: ObjectKey, fault: Option<string>): GetOutcome {
    if fault.Some? then OtherErr(Failed(fault.value))
    else if key in store then Found(store[key])
    else NotFound
  }

  function Create(store: Store, obj: PrometheusRule, fault: Option<string>, version: string): Result<Store, ApiError> {
    if fault.Some? then Failure(Failed(fault.value))
    else if obj.Key() in store then Failure(AlreadyExists(obj.Key()))
    else Success(store[obj.Key() := obj.WithVersion(version)])
  }

  function Update(store: Store, obj: PrometheusRule, fault: Option<string>, version: string): Result<Store, ApiError> {
    if fault.Some? then Failure(Failed(fault.value))
    else if obj.Key() !in store then Failure(ObjectNotFound(obj.Key()))
    else if store[obj.Key()].meta.resourceVersion != obj.meta.resourceVersion then Failure(Conflict(obj.Key()))
    else Success(store[obj.Key() := obj.WithVersion(version)])
  }

  /** A write the service sends to the API server. */
  datatype Request = CreateRequest(obj: PrometheusRule) | UpdateRequest(obj: PrometheusRule)

  /** The cluster after the step, the writes sent, and the error returned. */
  datatype Step = Step(store: Store, requests: seq<Request>, err: Option<ApiError>)

  /** `store` holds the desired annotations, labels and spec for the rule. */
  predicate HoldsDesired(store: Store, pool: string, ruleName: string, groups: seq<RuleFmt.RuleGroup>) {
    var key := RuleKey(pool, ruleName);
    && key in store
    && store[key].Key() == key
    && store[key].meta.annotations == ManagedAnnotations()
    && store[key].meta.labels == PoolLabels(pool)
    && GroupsTranslated(groups, store[key].spec.groups)
  }

  /** `before` and `after` agree on every identity other than `key`. */
  predicate SameElsewhere(before: Store, after: Store, key: ObjectKey) {
    && before.Keys - {key} == after.Keys - {key}
    && forall k :: k in before && k in after && k != key ==> after[k] == before[k]
  }

  function ReconcileRule(store: Store, pool: string, ruleName: string, groups: seq<RuleFmt.RuleGroup>,
                         server: ServerBehaviour): (s: Step)
    // a failing read is returned and nothing is written
    ensures server.getFault.Some? ==> s == Step(store, [], Some(Failed(server.getFault.value)))
    // absent object: the desired object is created as is
    ensures server.getFault.None? && RuleKey(pool, ruleName) !in store ==>
      s.requests == [CreateRequest(DesiredPrometheusRule(pool, ruleName, groups))]
    // present object: the desired object is sent with the current version token
    ensures server.getFault.None? && RuleKey(pool, ruleName) in store ==>
      s.requests == [UpdateRequest(DesiredPrometheusRule(pool, ruleName, groups)
                                     .WithVersion(store[RuleKey(pool, ruleName)].meta.resourceVersion))]
    // the only failures are the injected ones: no conflict, no duplicate creation
    ensures s.err.None? <==> server.getFault.None? && server.writeFault.None?
    ensures server.getFault.None? && s.err.Some? ==> s.err == Some(Failed(server.writeFault.value))
    // no partial writes
    ensures s.err.Some? ==> s.store == store
    ensures s.err.None? ==>
      && HoldsDesired(s.store, pool, ruleName, groups)
      && s.store[RuleKey(pool, ruleName)].meta.resourceVersion == server.issuedVersion
      && SameElsewhere(store, s.store, RuleKey(pool, ruleName))
  {
    var desired := DesiredPrometheusRule(pool, ruleName, groups);
    match Get(store, desired.Key(), server.getFault)
    case OtherErr(e) => Step(store, [], Some(e))
    case NotFound =>
      var request := CreateRequest(desired);
      (match Create(store, desired, server.writeFault, server.issuedVersion)
       case Success(after) => Step(after, [request], None)
       case Failure(e) => Step(store, [request], Some(e)))
    case Found(current) =>
      var sent := desired.WithVersion(current.meta.resourceVersion);
      var request := UpdateRequest(sent);
      match Update(store, sent, server.writeFault, server.issuedVersion)
      case Success(after) => Step(after, [request], None)
      case Failure(e) => Step(store, [request], Some(e))
  }

  /** Sending the desired object without copying the current version token
      is refused whenever the stored object carries a token: the copy is
      what makes the update acceptable. */
  lemma UpdateWithoutVersionRefused(store: Store, pool: string, ruleName: string,
                                      groups: seq<RuleFmt.RuleGroup>, version: string)
    requires RuleKey(pool, ruleName) in store
    requires store[RuleKey(pool, ruleName)].meta.resourceVersion != ""
    ensures Update(store, DesiredPrometheusRule(pool, ruleName, groups), None, version).Failure?
  {
  }

  /** Reconciling the same rule twice against a cluster that lacks it gives
      one create followed by one update, and the same spec both times. */
  lemma ReconcileTwice(store: Store, pool: string, ruleName: string, groups: seq<RuleFmt.RuleGroup>,
                       first: ServerBehaviour, second: ServerBehaviour)
    requires RuleKey(pool, ruleName) !in store
    requires first.getFault.None? && first.writeFault.None?
    requires second.getFault.None? && second.writeFault.None?
    ensures
      var desired := DesiredPrometheusRule(pool, ruleName, groups);
      var s1 := ReconcileRule(store, pool, ruleName, groups, first);
      var s2 := ReconcileRule(s1.store, pool, ruleName, groups, second);
      && s1.err.None? && s2.err.None?
      && s1.requests + s2.requests
           == [CreateRequest(desired), UpdateRequest(desired.WithVersion(first.issuedVersion))]
      && s1.store[RuleKey(pool, ruleName)].spec == s2.store[RuleKey(pool, ruleName)].spec == desired.spec
      && s2.store == s1.store[RuleKey(pool, ruleName) := desired.WithVersion(second.issuedVersion)]
  {
  }
}

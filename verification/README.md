# tsuru-prometheus-api: rule translation, pool resolution and reconcile, in Dafny

tsuru-prometheus-api accepts a Prometheus rule file for a tsuru pool. It finds
the Kubernetes cluster that hosts the pool. It then creates or updates a
Prometheus-Operator `PrometheusRule` object named after the rule, in the
namespace `tsuru-<pool>` of that cluster. This project models the three pieces
of `service/service.go` that make decisions:

- **Translator** (`Translate`): `kubernetizeRuleGroups` / `kubernetizeRules`.
  This is an order-preserving, field-by-field map from parsed rule groups
  (`RuleFmt`) to the operator's rule groups (`Monitoring`). A duration that
  formats as `"0s"` becomes `""`. Durations are represented by their formatted
  string, because `model.Duration.String()` belongs to Prometheus. Each
  expression becomes the string form of `IntOrString`.
- **Resolver** (`PoolCluster`): `getPoolCluster`. It scans the cluster list
  from left to right and skips clusters whose provisioner is not
  `"kubernetes"`. It remembers the last default cluster seen and returns the
  first cluster that lists the pool. Otherwise it returns the remembered
  default, or fails with "no cluster found for pool <pool>". The Go loop is
  modelled as the tail-recursive `Scan`, whose `chosen` accumulator is the
  Go variable `chosenCluster`.
- **Reconciler** (`Reconcile`): the body of `EnsurePrometheusRule` once a
  client exists. It builds the desired object, reads the current one and
  then creates the desired object or updates it with the copied
  `ResourceVersion`. The cluster is a map from `(namespace, name)` to object.
  The API server refuses to create an object that exists. It refuses an
  update that is stale or aimed at a missing object. It stamps every
  accepted write with a version token it issues. Other failures of Get,
  Create or Update are injected faults.
- **Service** (`Service`): `EnsurePrometheusRule` end to end. It resolves the
  cluster, lets the client getter fail or succeed, and reconciles. The
  clusters known to tsuru and the objects in every target cluster are
  parameters. The two test scenarios of `service/service_test.go` are stated
  as lemmas about this function.

Everything is pure: the reconcile step is a state transition that returns
the new store, the write requests it sent and the error it returned.

## Model

| member | source | states |
|---|---|---|
| Translate.NormalizeDuration | service/service.go:222-225 | the result is never "0s"; a value other than "0s" is kept verbatim; the result is empty exactly when the formatted duration is "0s" or empty |
| Translate.NormalizeDurationIdempotent | service/service.go:222-225 | normalising twice gives the same as normalising once |
| Translate.KubernetizeRule | service/service.go:242-249 | Record and Alert copied, Expr is the string form of the expression, For is normalised, Labels and Annotations passed through unchanged |
| Translate.KubernetizeRules | service/service.go:235-252 | exactly one translated rule per input rule, at the same position |
| Translate.KubernetizeRuleGroups | service/service.go:219-233 | exactly one group per input group, at the same position, with the same name, the normalised interval and its rules translated one by one in order |
| Translate.RuleTranslatedUnique | service/service.go:242-249 | the rule field correspondence admits only one translation per rule |
| Translate.RulesTranslatedUnique | service/service.go:235-252 | a rule list that corresponds position by position to the input is the translator's output |
| Translate.KubernetizeRuleGroupsCharacterized | service/service.go:219-252 | a group list is the translator's output if and only if it corresponds to the input one group and one rule at a time, in order |
| Translate.KubernetizeRuleGroupsAppend | service/service.go:219-233 | translating a concatenation is concatenating the translations: no reordering, merging or deduplication |
| Translate.NoZeroDurationInOutput | service/service.go:219-252 | no interval and no "for" of the output is "0s" |
| PoolCluster.Scan | service/service.go:199-216 | the scan returns a Kubernetes cluster of the list or the remembered default, and otherwise the not-found error for the pool |
| PoolCluster.GetPoolCluster | service/service.go:193-217 | a resolved cluster is in the list and is a Kubernetes cluster; a failure is the error "no cluster found for pool <pool>" for the requested pool |
| PoolCluster.ScanFirstServing | service/service.go:207-211 | the scan returns the first Kubernetes cluster listing the pool, whatever it remembered |
| PoolCluster.ScanNothingLeft | service/service.go:213-216 | with no serving cluster and no default left, the scan ends on what it remembered, or fails |
| PoolCluster.ScanLastDefault | service/service.go:204-205 | with no serving cluster, the scan returns the last Kubernetes default cluster |
| PoolCluster.ScanFailure | service/service.go:213-214 | the scan fails only if nothing was remembered and no cluster serves the pool or is a Kubernetes default |
| PoolCluster.FirstServingClusterWins | service/service.go:200-211 | the first Kubernetes cluster in list order whose pools contain the pool is chosen, even when a default cluster exists |
| PoolCluster.FallsBackToLastDefault | service/service.go:204-216 | without a serving cluster, the last Kubernetes cluster flagged default is chosen |
| PoolCluster.FailsIffNoServingNorDefault | service/service.go:213-216 | resolution fails exactly when no Kubernetes cluster serves the pool and none is flagged default |
| PoolCluster.ResolverExamples | service/service.go:199-216 | on two clusters, an exact match beats a default elsewhere, an unknown pool falls back to the default, and without a default it fails |
| Reconcile.DesiredPrometheusRule | service/service.go:151-167 | identity (`tsuru-<pool>`, rule name), exactly the managed-by and part-of annotations, exactly the pool label, no version token, and a spec corresponding group by group to the request |
| Reconcile.RuleKeyInjective | service/service.go:151-155 | two different (pool, rule name) pairs never address the same object |
| Reconcile.ReconcileRule | service/service.go:169-190 | a failed read writes nothing; an absent object is created as desired; a present one is updated with its version token copied; only injected faults fail; a failure leaves the cluster unchanged; success leaves the desired metadata and spec at the key and every other key unchanged |
| Reconcile.UpdateWithoutVersionRefused | service/service.go:182-184 | an update sent without the copied version token is refused whenever the stored object carries a token |
| Reconcile.ReconcileTwice | service/service.go:171-188 | two reconciles against a cluster lacking the object give one create followed by one update, with the same spec both times |
| Service.EnsurePrometheusRule | service/service.go:141-190 | resolution and client failures are returned with no write; a failed Get, Create or Update is returned as it is; the call succeeds exactly when nothing fails; on success the resolved Kubernetes cluster holds the desired object and no other cluster or key changes |
| Service.ExpectedSpecIsTranslation | service/service_test.go:69-81 | the test's expected spec, with empty interval and "for", is the translation of its request |
| Service.EnsureCreationScenario | service/service_test.go:23-82 | on an empty cluster, the created object carries the fixed annotations, the pool label and the expected spec |
| Service.EnsureUpdateScenario | service/service_test.go:84-163 | an existing object with another expression is overwritten with the fixed annotations, the pool label and the expected spec |

Two behaviours of the code worth stating:

- The pool label `tsuru.io/pool` is always set (service/service.go:160-162). It
  is not optional.
- An update sends the whole desired object (service/service.go:182-184). So
  annotations and labels of the existing object that are not in the desired
  set are dropped. Only the version token is carried over.

## Left out

- Client construction (`NewK8SClientGetterWithToken`, `NewK8SClientGetterWithKubeConfig`, service/service.go:40-114): it only assembles client-go configuration. Its outcome is the `clientFault` parameter of `EnsurePrometheusRule`.
- The tsuru API client and the `ClusterList` HTTP call (service/service.go:131-139, 194-197): these are network I/O. The cluster list is a parameter, and a failure of the call is not modelled.
- Scheme registration (service/service.go:123-126): a process-wide type registry with no decision logic.
- `model.Duration.String()`: this is Prometheus code. Every duration is its formatted string.
- Concurrency: two requests racing on the same object are not modelled. The store is sequential, and the API server's version check is the only protection.
- Server-managed metadata other than the version token (uid, timestamps, generation), and the rest of `ObjectMeta`.
- `api/api.go`: HTTP routing, the placeholder basic-auth check that accepts everything, the `Content-Type` check and the call to the rule-file parser.
- `main.go`: it reads environment variables and starts the server. Its call `service.NewService(tsuruToken, kubernetesToken)` (main.go:31) passes a string where a `K8SClientGetter` is expected (service/service.go:116). The file does not compile against service/service.go.
- The kinds of refusal the API server reports are simplified. A stale update is a `Conflict`, as with the in-memory client of the repository's tests. A real API server refuses an update without any version token as invalid instead. The service passes every refusal on unchanged, so nothing in the model depends on its kind.
- `IntOrString` integer width: `FromInt` carries an unbounded integer, but the translator never produces it.

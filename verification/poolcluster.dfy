/** Choice of the cluster that hosts a pool (`getPoolCluster` in
    service/service.go). The cluster list, fetched over HTTP by the service,
    is a parameter here. */
module PoolCluster {
  import opened Wrappers

  /** The provisioner kind of clusters the service can write to. */
  const KubernetesProvisioner: string := "kubernetes"

  /** A cluster as registered in the tsuru platform API (`tsuru.Cluster`);
      the connection material the service hands to its client getter is
      not modelled. */
  datatype Cluster = Cluster(
    name: string,
    provisioner: string,
    isDefault: bool,
    addresses: seq<string>,
    pools: seq<string>)

  datatype ResolveError = NoClusterFound(pool: string)

  function ErrorMessage(e: ResolveError): string {
    "no cluster found for pool " + e.pool
  }

  predicate IsKubernetes(c: Cluster) {
    c.provisioner == KubernetesProvisioner
  }

  /** A Kubernetes cluster that lists `pool` among its pools (exact,
      case-sensitive string equality). */
  predicate Serves(c: Cluster, pool: string) {
    IsKubernetes(c) && pool in c.pools
  }

  predicate IsKubernetesDefault(c: Cluster) {
    IsKubernetes(c) && c.isDefault
  }

  /** The left-to-right scan of the cluster list: `chosen` is the most
      recently seen Kubernetes default cluster. The scan returns on the
      first Kubernetes cluster that serves the pool; at the end of the list
      it falls back to `chosen`. */
  function Scan(clusters: seq<Cluster>, pool: string, chosen: Option<Cluster>): (r: Result<Cluster, ResolveError>)
    requires chosen.Some? ==> IsKubernetes(chosen.value)
    ensures r.Success? ==> IsKubernetes(r.value) && (r.value in clusters || chosen == Some(r.value))
    ensures r.Failure? ==> r.error == NoClusterFound(pool)
    decreases |clusters|
  {
    if |clusters| == 0 then
      match chosen
      case None => Failure(NoClusterFound(pool))
      case Some(c) => Success(c)
    else
      var c := clusters[0];
      if !IsKubernetes(c) then
        Scan(clusters[1..], pool, chosen)
      else
        var remembered := if c.isDefault then Some(c) else chosen;
        if pool in c.pools then Success(c)
        else Scan(clusters[1..], pool, remembered)
  }

  /** The cluster that hosts `pool`, or the error the service reports. The
      result is always a Kubernetes cluster of the list, whatever its
      default flag or pools. */
  function GetPoolCluster(clusters: seq<Cluster>, pool: string): (r: Result<Cluster, ResolveError>)
    ensures r.Success? ==> r.value in clusters && IsKubernetes(r.value)
    ensures r.Failure? ==> r.error == NoClusterFound(pool)
    ensures r.Failure? ==> ErrorMessage(r.error) == "no cluster found for pool " + pool
  {
    Scan(clusters, pool, None)
  }

  lemma {:induction false} ScanFirstServing(clusters: seq<Cluster>, pool: string, chosen: Option<Cluster>, i: nat)
    requires chosen.Some? ==> IsKubernetes(chosen.value)
    requires i < |clusters| && Serves(clusters[i], pool)
    requires forall j :: 0 <= j < i ==> !Serves(clusters[j], pool)
    ensures Scan(clusters, pool, chosen) == Success(clusters[i])
    decreases i
  {
    if i > 0 {
      var c := clusters[0];
      assert !Serves(c, pool);
      var rest := clusters[1..];
      assert rest[i - 1] == clusters[i];
      assert forall j :: 0 <= j < i - 1 ==> rest[j] == clusters[j + 1];
      if IsKubernetes(c) {
        var remembered := if c.isDefault then Some(c) else chosen;
        ScanFirstServing(rest, pool, remembered, i - 1);
      } else {
        ScanFirstServing(rest, pool, chosen, i - 1);
      }
    }
  }

  /** With no serving cluster and no Kubernetes default left in the list,
      the scan ends on what it remembered. */
  lemma {:induction false} ScanNothingLeft(clusters: seq<Cluster>, pool: string, chosen: Option<Cluster>)
    requires chosen.Some? ==> IsKubernetes(chosen.value)
    requires forall j :: 0 <= j < |clusters| ==> !Serves(clusters[j], pool)
    requires forall j :: 0 <= j < |clusters| ==> !IsKubernetesDefault(clusters[j])
    ensures Scan(clusters, pool, chosen) ==
      match chosen
      case None => Failure(NoClusterFound(pool))
      case Some(c) => Success(c)
    decreases |clusters|
  {
    if |clusters| > 0 {
      assert !Serves(clusters[0], pool) && !IsKubernetesDefault(clusters[0]);
      var rest := clusters[1..];
      assert forall j :: 0 <= j < |rest| ==> rest[j] == clusters[j + 1];
      ScanNothingLeft(rest, pool, chosen);
    }
  }

  lemma {:induction false} ScanLastDefault(clusters: seq<Cluster>, pool: string, chosen: Option<Cluster>, k: nat)
    requires chosen.Some? ==> IsKubernetes(chosen.value)
    requires forall j :: 0 <= j < |clusters| ==> !Serves(clusters[j], pool)
    requires k < |clusters| && IsKubernetesDefault(clusters[k])
    requires forall j :: k < j < |clusters| ==> !IsKubernetesDefault(clusters[j])
    ensures Scan(clusters, pool, chosen) == Success(clusters[k])
    decreases k
  {
    var c := clusters[0];
    assert !Serves(c, pool);
    var rest := clusters[1..];
    assert forall j :: 0 <= j < |rest| ==> rest[j] == clusters[j + 1];
    if k == 0 {
      ScanNothingLeft(rest, pool, Some(c));
    } else if IsKubernetes(c) {
      var remembered := if c.isDefault then Some(c) else chosen;
      ScanLastDefault(rest, pool, remembered, k - 1);
    } else {
      ScanLastDefault(rest, pool, chosen, k - 1);
    }
  }

  lemma {:induction false} ScanFailure(clusters: seq<Cluster>, pool: string, chosen: Option<Cluster>)
    requires chosen.Some? ==> IsKubernetes(chosen.value)
    requires Scan(clusters, pool, chosen).Failure?
    ensures chosen.None?
    ensures forall j :: 0 <= j < |clusters| ==> !Serves(clusters[j], pool) && !IsKubernetesDefault(clusters[j])
    decreases |clusters|
  {
    if |clusters| > 0 {
      var c := clusters[0];
      var rest := clusters[1..];
      assert forall j :: 0 <= j < |rest| ==> rest[j] == clusters[j + 1];
      var remembered := if IsKubernetes(c) && c.isDefault then Some(c) else chosen;
      if IsKubernetes(c) {
        ScanFailure(rest, pool, remembered);
      } else {
        ScanFailure(rest, pool, chosen);
      }
    }
  }

  /** The first Kubernetes cluster in list order that lists the pool wins,
      even when a default cluster appears anywhere in the list. */
  lemma FirstServingClusterWins(clusters: seq<Cluster>, pool: string, i: nat)
    requires i < |clusters| && Serves(clusters[i], pool)
    requires forall j :: 0 <= j < i ==> !Serves(clusters[j], pool)
    ensures GetPoolCluster(clusters, pool) == Success(clusters[i])
  {
    ScanFirstServing(clusters, pool, None, i);
  }

  /** Without a serving cluster, the last Kubernetes default cluster of the
      list is chosen. */
  lemma FallsBackToLastDefault(clusters: seq<Cluster>, pool: string, k: nat)
    requires forall j :: 0 <= j < |clusters| ==> !Serves(clusters[j], pool)
    requires k < |clusters| && IsKubernetesDefault(clusters[k])
    requires forall j :: k < j < |clusters| ==> !IsKubernetesDefault(clusters[j])
    ensures GetPoolCluster(clusters, pool) == Success(clusters[k])
  {
    ScanLastDefault(clusters, pool, None, k);
  }

  /** Resolution fails exactly when no Kubernetes cluster serves the pool and
      none is flagged default. */
  lemma FailsIffNoServingNorDefault(clusters: seq<Cluster>, pool: string)
    ensures GetPoolCluster(clusters, pool).Failure? <==>
      forall j :: 0 <= j < |clusters| ==> !Serves(clusters[j], pool) && !IsKubernetesDefault(clusters[j])
  {
    if GetPoolCluster(clusters, pool).Failure? {
      ScanFailure(clusters, pool, None);
    } else if forall j :: 0 <= j < |clusters| ==> !Serves(clusters[j], pool) && !IsKubernetesDefault(clusters[j]) {
      ScanNothingLeft(clusters, pool, None);
    }
  }

  /** The three situations of the resolver's contract, on a two-cluster
      list: an exact pool match beats a default elsewhere; an unknown pool
      falls back to the default; without a default it fails. */
  lemma ResolverExamples()
    ensures
      var a := Cluster("c1", KubernetesProvisioner, false, [], ["a"]);
      var b := Cluster("c2", KubernetesProvisioner, true, [], ["b"]);
      && GetPoolCluster([a, b], "b") == Success(b)
      && GetPoolCluster([a, b], "c") == Success(b)
      && GetPoolCluster([a, b.(isDefault := false)], "c") == Failure(NoClusterFound("c"))
  {
    var a := Cluster("c1", KubernetesProvisioner, false, [], ["a"]);
    var b := Cluster("c2", KubernetesProvisioner, true, [], ["b"]);
    assert "b" != "a" && "c" != "a" && "c" != "b";
    FirstServingClusterWins([a, b], "b", 1);
    FallsBackToLastDefault([a, b], "c", 1);
    FailsIffNoServingNorDefault([a, b.(isDefault := false)], "c");
  }
}

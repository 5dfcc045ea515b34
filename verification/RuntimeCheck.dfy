/** The check made before each test runs, and what it and the marker check guarantee together. */
module RuntimeCheck {
  import opened Wrappers
  import opened UsageScan
  import opened MarkerCheck
  import opened Clusters

  /** What the configuration provides. */
  datatype Config = Config(
    testServers: nat, syncGateways: seq<GatewayInfo>, couchbaseServers: seq<ServerInfo>,
    edgeServers: nat, loadBalancers: nat)

  /** The topology of a configuration from which `clusters` clusters were built. */
  function TopologyOf(config: Config, clusters: nat): Topology {
    Topology(config.testServers, |config.syncGateways|, |config.couchbaseServers|,
             config.edgeServers, config.loadBalancers, clusters)
  }

  /** `check`: a marker asks for a least number of one kind. */
  predicate Enough(declared: Markers, m: Marker, count: nat) {
    m in declared ==> count >= declared[m]
  }

  /** Everything that the markers ask for is there. */
  predicate Runs(declared: Markers, config: Config) {
    && Enough(declared, MinTestServers, config.testServers)
    && Enough(declared, MinSyncGateways, |config.syncGateways|)
    && Enough(declared, MinCouchbaseServers, |config.couchbaseServers|)
    && Enough(declared, MinEdgeServers, config.edgeServers)
    && Enough(declared, MinLoadBalancers, config.loadBalancers)
    && (MinClusters in declared ==>
          exists i | 0 <= i < |config.syncGateways| :: config.syncGateways[i].clusterIndex + 1 >= declared[MinClusters])
  }

  /** The hook that runs before each test: whether the test runs or is skipped. */
  method RuntimeSetup(declared: Markers, config: Config) returns (runs: bool)
    ensures runs <==> Runs(declared, config)
  {
    if declared == map[] {
      return true;
    }
    if !(Enough(declared, MinTestServers, config.testServers)
         && Enough(declared, MinSyncGateways, |config.syncGateways|)
         && Enough(declared, MinCouchbaseServers, |config.couchbaseServers|)
         && Enough(declared, MinEdgeServers, config.edgeServers)
         && Enough(declared, MinLoadBalancers, config.loadBalancers)) {
      return false;
    }
    runs := true;
    if MinClusters in declared {
      runs := CheckClusters(declared[MinClusters], config.syncGateways);
    }
  }

  /** Each marker is about its own kind, and all of them must be satisfied. */
  lemma MarkerByMarker(declared: Markers, config: Config, n: nat)
    ensures Runs(map[MinTestServers := n], config) <==> config.testServers >= n
    ensures Runs(map[MinSyncGateways := n], config) <==> |config.syncGateways| >= n
    ensures Runs(map[MinCouchbaseServers := n], config) <==> |config.couchbaseServers| >= n
    ensures Runs(map[MinEdgeServers := n], config) <==> config.edgeServers >= n
    ensures Runs(map[MinLoadBalancers := n], config) <==> config.loadBalancers >= n
    ensures Runs(map[MinClusters := n], config)
            <==> exists i | 0 <= i < |config.syncGateways| :: config.syncGateways[i].clusterIndex >= n - 1
    ensures Runs(declared, config) <==> forall m | m in declared :: Runs(map[m := declared[m]], config)
  {
    forall m | m in declared && Runs(declared, config) ensures Runs(map[m := declared[m]], config) {
      assert MinClusters in map[m := declared[m]] ==> m == MinClusters;
    }
  }

  /** The clusters were built from the configuration. */
  ghost predicate BuiltBy(config: Config, clusters: seq<Cluster>) {
    IsBuilt(clusters, Entries(config.syncGateways, config.couchbaseServers))
  }

  /** Given that the clusters could be built, the hook lets a test run exactly when the topology
      meets its markers, and there is a cluster if it asks for clusters at all. */
  lemma SetupMeansAdmitted(declared: Markers, config: Config, clusters: seq<Cluster>)
    requires BuiltBy(config, clusters)
    ensures Runs(declared, config)
            <==> Admitted(declared, TopologyOf(config, |clusters|)) && (MinClusters in declared ==> |clusters| >= 1)
  {
    var t := TopologyOf(config, |clusters|);
    assert forall m | m in declared && m != MinClusters :: Enough(declared, m, Count(t, m)) <==> Count(t, m) >= declared[m];
    if MinClusters in declared {
      CheckCountsClusters(clusters, config.syncGateways, config.couchbaseServers, declared[MinClusters]);
    }
  }

  // ---------------------------------------------------------------- the lists that a test indexes

  /** The lists of the `CBLPyTest` object are those of the first cluster. */
  function FirstGateways(clusters: seq<Cluster>): seq<Entry> {
    if clusters != [] then clusters[0].syncGateways else []
  }

  function FirstServers(clusters: seq<Cluster>): seq<Entry> {
    if clusters != [] then clusters[0].couchbaseServers else []
  }

  function ListOf(c: Cluster, marker: Marker): seq<Entry> {
    if marker.MinSyncGateways? then c.syncGateways else c.couchbaseServers
  }

  /** Is it cluster `j` of `k` whose lists the receiver has? A negative number counts from the last
      cluster, and an unknown cluster may be any. */
  predicate MayBe(r: Receiver, k: nat, j: nat) {
    match r
    case TestObject => j == 0
    case OneCluster(None) => true
    case OneCluster(Some(n)) => j == if n >= 0 then n else k + n
  }

  predicate InClusterLists(a: Access, clusters: seq<Cluster>)
    requires a.Indexed?
  {
    forall j | 0 <= j < |clusters| && MayBe(a.receiver, |clusters|, j) :: InRange(a.index, |ListOf(clusters[j], a.marker)|)
  }

  /** The index is in range of the list it is used on. Where there is no such cluster, the index of
      the cluster is out of range, not this one. */
  predicate InList(a: Access, config: Config, clusters: seq<Cluster>)
    requires a.Indexed?
  {
    match a.marker
    case MinTestServers => InRange(a.index, config.testServers)
    case MinSyncGateways =>
      if a.receiver.TestObject? then InRange(a.index, |FirstGateways(clusters)|) else InClusterLists(a, clusters)
    case MinCouchbaseServers =>
      if a.receiver.TestObject? then InRange(a.index, |FirstServers(clusters)|) else InClusterLists(a, clusters)
    case MinEdgeServers => InRange(a.index, config.edgeServers)
    case MinLoadBalancers => InRange(a.index, config.loadBalancers)
    case MinClusters => InRange(a.index, |clusters|)
  }

  ghost predicate AllInLists(accesses: set<Access>, config: Config, clusters: seq<Cluster>) {
    forall a | a in accesses && a.Indexed? :: InList(a, config, clusters)
  }

  /** The test runs on these clusters. */
  ghost predicate RunsOn(declared: Markers, config: Config, clusters: seq<Cluster>) {
    BuiltBy(config, clusters) && Runs(declared, config)
  }

  /** A test that was accepted runs without an index error on one cluster. Without any, its indexes
      are in range but for those on the list of clusters, where the first needs no marker. */
  lemma OneClusterIsSafe(declared: Markers, accesses: set<Access>, config: Config, clusters: seq<Cluster>)
    requires Safe(declared, accesses) && RunsOn(declared, config, clusters) && |clusters| <= 1
    ensures forall a | a in accesses && a.Indexed? && !(a.marker.MinClusters? && clusters == []) ::
              InList(a, config, clusters)
  {
    var t := TopologyOf(config, 1);
    SetupMeansAdmitted(declared, config, clusters);
    MarkerCountsAllClusters(clusters, config.syncGateways, config.couchbaseServers);
    assert Admitted(declared, t) by {
      assert forall m :: m != MinClusters ==> Count(t, m) == Count(TopologyOf(config, |clusters|), m);
    }
    assert AllInRange(accesses, t);
    forall a | a in accesses && a.Indexed? && !(a.marker.MinClusters? && clusters == [])
      ensures InList(a, config, clusters)
    {
      assert InRange(a.index, Count(t, a.marker));
    }
  }

  /** The access is one that the markers make safe on `k` clusters: it is not about the lists of a
      cluster, or it needs no more than one gateway, or no more than one server of the first. */
  predicate Fits(a: Access, k: nat)
    requires a.Indexed?
  {
    match a.marker
    case MinSyncGateways => Need(a.index) <= 1 || forall j | 0 <= j < k :: !MayBe(a.receiver, k, j)
    case MinCouchbaseServers => forall j | 0 <= j < k && MayBe(a.receiver, k, j) :: j == 0 && Need(a.index) <= 1
    case _ => true
  }

  lemma FitsIsSafe(declared: Markers, accesses: set<Access>, config: Config, clusters: seq<Cluster>, a: Access)
    requires Safe(declared, accesses) && RunsOn(declared, config, clusters) && clusters != []
    requires a in accesses && a.Indexed? && Fits(a, |clusters|)
    ensures InList(a, config, clusters)
  {
    var all, t := Entries(config.syncGateways, config.couchbaseServers), TopologyOf(config, |clusters|);
    SetupMeansAdmitted(declared, config, clusters);
    assert AllInRange(accesses, t);
    assert InRange(a.index, Count(t, a.marker));
    NeedIsLeast(a.index, 1);
    if a.receiver.TestObject? {
      assert MayBe(a.receiver, |clusters|, 0);
    }
    match a.marker {
      case MinSyncGateways =>
        forall k | 0 <= k < |clusters| ensures clusters[k].syncGateways != [] {
          assert IsCluster(clusters[k], all, k);
        }
        forall j | 0 <= j < |clusters| && MayBe(a.receiver, |clusters|, j)
          ensures InRange(a.index, |clusters[j].syncGateways|)
        {
          NeedIsLeast(a.index, |clusters[j].syncGateways|);
        }
      case MinCouchbaseServers =>
        var n := |config.syncGateways|;
        assert !all[n].0.SyncGateway? && 0 <= all[n].1 < |clusters|;
        ServersSomewhere(clusters, all, n);
        NeedIsLeast(a.index, |clusters[0].couchbaseServers|);
      case _ =>
    }
  }

  /** If there is a server, the first cluster has one. */
  lemma ServersSomewhere(clusters: seq<Cluster>, all: History, n: nat)
    requires IsBuilt(clusters, all) && n < |all| && !all[n].0.SyncGateway?
    ensures clusters != [] && clusters[0].couchbaseServers != []
  {
    var k := all[n].1;
    assert IsFor(all, n, false, k);
    PickedSome(all, false, k);
    assert IsCluster(clusters[k], all, k);
  }

  // ---------------------------------------------------------------- several clusters

  function Asked(declared: Markers, m: Marker): nat { if m in declared then declared[m] else 0 }

  /** Cluster indexes: one for each of `k` clusters, and the rest for cluster `big`. */
  function Skewed(k: nat, rest: nat, big: nat): seq<nat> {
    seq(k + rest, i requires 0 <= i => if i < k then i else big)
  }

  /** A configuration with just enough of everything else, and these gateways and servers. */
  function ConfigWith(declared: Markers, gateways: seq<nat>, servers: seq<nat>): Config {
    Config(
      Asked(declared, MinTestServers),
      seq(|gateways|, i requires 0 <= i < |gateways| => GatewayInfo("gateway", true, gateways[i])),
      seq(|servers|, i requires 0 <= i < |servers| => ServerInfo("server", servers[i])),
      Asked(declared, MinEdgeServers),
      Asked(declared, MinLoadBalancers))
  }

  /** The clusters with what was picked for each. */
  ghost function ClustersOf(all: History, k: nat): seq<Cluster> {
    seq(k, i requires 0 <= i < k => Cluster(Picked(all, true, i), Picked(all, false, i)))
  }

  ghost function AllOf(declared: Markers, gateways: seq<nat>, servers: seq<nat>): History {
    var config := ConfigWith(declared, gateways, servers);
    Entries(config.syncGateways, config.couchbaseServers)
  }

  lemma Placed(declared: Markers, gateways: seq<nat>, servers: seq<nat>, n: nat)
    requires n < |gateways| + |servers|
    ensures var all := AllOf(declared, gateways, servers);
            && |all| == |gateways| + |servers|
            && all[n] == if n < |gateways| then (SyncGateway("gateway", true), gateways[n] as int)
                         else (CouchbaseServer("server"), servers[n - |gateways|] as int)
  {
  }

  /** Entry `n` of the indexes of a kind is for cluster `j`. */
  lemma PlacedSome(declared: Markers, gateways: seq<nat>, servers: seq<nat>, kind: bool, j: nat, n: nat)
    requires var indexes := if kind then gateways else servers; n < |indexes| && indexes[n] == j
    ensures Picked(AllOf(declared, gateways, servers), kind, j) != []
  {
    var all, at := AllOf(declared, gateways, servers), if kind then n else |gateways| + n;
    Placed(declared, gateways, servers, at);
    assert IsFor(all, at, kind, j);
    PickedSome(all, kind, j);
  }

  lemma PlacedNone(declared: Markers, gateways: seq<nat>, servers: seq<nat>, kind: bool, j: nat)
    requires j !in if kind then gateways else servers
    ensures Picked(AllOf(declared, gateways, servers), kind, j) == []
  {
    var all := AllOf(declared, gateways, servers);
    PickedSome(all, kind, j);
    if HasIndex(all, kind, j) {
      var n :| 0 <= n < |all| && IsFor(all, n, kind, j);
      Placed(declared, gateways, servers, n);
    }
  }

  lemma PlacedOne(declared: Markers, gateways: seq<nat>, servers: seq<nat>, kind: bool, j: nat, n: nat)
    requires var indexes := if kind then gateways else servers;
             n < |indexes| && forall m | 0 <= m < |indexes| :: indexes[m] == j <==> m == n
    ensures Picked(AllOf(declared, gateways, servers), kind, j)
            == [if kind then SyncGateway("gateway", true) else CouchbaseServer("server")]
  {
    var all, at := AllOf(declared, gateways, servers), if kind then n else |gateways| + n;
    forall m | 0 <= m < |all| ensures IsFor(all, m, kind, j) <==> m == at {
      Placed(declared, gateways, servers, m);
    }
    Placed(declared, gateways, servers, at);
    PickedOne(all, kind, j, at);
  }

  /** The clusters with these numbers of gateways and servers exist, and the markers let a test run. */
  lemma RunsOnThese(declared: Markers, k: nat, gateways: seq<nat>, servers: seq<nat>)
    requires 1 <= k && Asked(declared, MinClusters) <= k
    requires |gateways| >= Asked(declared, MinSyncGateways) && |servers| >= Asked(declared, MinCouchbaseServers)
    requires k <= |gateways| && gateways[k - 1] == k - 1
    requires (forall g | g in gateways :: g < k) && (forall s | s in servers :: s < k)
    requires FirstClusters(ClustersOf(AllOf(declared, gateways, servers), k), AllOf(declared, gateways, servers))
    requires forall j, m | 0 <= j < m < k && Picked(AllOf(declared, gateways, servers), false, m) != [] ::
               Picked(AllOf(declared, gateways, servers), false, j) != []
    ensures RunsOn(declared, ConfigWith(declared, gateways, servers), ClustersOf(AllOf(declared, gateways, servers), k))
  {
    var config, all := ConfigWith(declared, gateways, servers), AllOf(declared, gateways, servers);
    forall n | 0 <= n < |all| ensures 0 <= all[n].1 < k {
      Placed(declared, gateways, servers, n);
      assert if n < |gateways| then gateways[n] in gateways else servers[n - |gateways|] in servers;
    }
    EnoughThere(declared, config, k);
  }

  /** Every cluster has a gateway and a server; all but one have no more. */
  lemma Spread(declared: Markers, k: nat, big: nat) returns (config: Config, clusters: seq<Cluster>)
    requires big < k && Asked(declared, MinClusters) <= k
    ensures RunsOn(declared, config, clusters) && |clusters| == k
    ensures forall j | 0 <= j < k && j != big :: |clusters[j].syncGateways| == 1 == |clusters[j].couchbaseServers|
  {
    var gateways := Skewed(k, Asked(declared, MinSyncGateways), big);
    var servers := Skewed(k, Asked(declared, MinCouchbaseServers), big);
    var all := AllOf(declared, gateways, servers);
    config, clusters := ConfigWith(declared, gateways, servers), ClustersOf(all, k);
    forall j | 0 <= j < k
      ensures Picked(all, true, j) != [] && Picked(all, false, j) != []
      ensures j != big ==> |Picked(all, true, j)| == 1 == |Picked(all, false, j)|
    {
      PlacedSome(declared, gateways, servers, true, j, j);
      PlacedSome(declared, gateways, servers, false, j, j);
      if j != big {
        PlacedOne(declared, gateways, servers, true, j, j);
        PlacedOne(declared, gateways, servers, false, j, j);
      }
    }
    RunsOnThese(declared, k, gateways, servers);
  }

  /** All servers are in the first cluster; the others have a single gateway that uses Rosmar. */
  lemma FirstHasServers(declared: Markers, k: nat) returns (config: Config, clusters: seq<Cluster>)
    requires 1 <= k && Asked(declared, MinClusters) <= k
    ensures RunsOn(declared, config, clusters) && |clusters| == k
    ensures forall j | 1 <= j < k :: clusters[j].couchbaseServers == []
  {
    var gateways := Skewed(k, Asked(declared, MinSyncGateways), 0);
    var servers := Skewed(1, Asked(declared, MinCouchbaseServers), 0);
    var all := AllOf(declared, gateways, servers);
    config, clusters := ConfigWith(declared, gateways, servers), ClustersOf(all, k);
    PlacedSome(declared, gateways, servers, true, 0, 0);
    PlacedSome(declared, gateways, servers, false, 0, 0);
    forall j | 1 <= j < k ensures Picked(all, false, j) == [] && IsCluster(clusters[j], all, j) {
      LaterCluster(declared, k, j);
    }
    assert IsCluster(clusters[0], all, 0);
    RunsOnThese(declared, k, gateways, servers);
  }

  /** Cluster `j` is a single gateway that uses Rosmar. */
  predicate LoneRosmar(all: History, j: nat) {
    Picked(all, true, j) == [SyncGateway("gateway", true)] && Picked(all, false, j) == []
  }

  lemma LaterCluster(declared: Markers, k: nat, j: nat)
    requires 1 <= j < k
    ensures LoneRosmar(AllOf(declared, Skewed(k, Asked(declared, MinSyncGateways), 0),
                             Skewed(1, Asked(declared, MinCouchbaseServers), 0)), j)
  {
    var gateways := Skewed(k, Asked(declared, MinSyncGateways), 0);
    var servers := Skewed(1, Asked(declared, MinCouchbaseServers), 0);
    PlacedOne(declared, gateways, servers, true, j, j);
    PlacedNone(declared, gateways, servers, false, j);
  }

  lemma EnoughThere(declared: Markers, config: Config, k: nat)
    requires Asked(declared, MinClusters) <= k
    requires config.testServers == Asked(declared, MinTestServers)
    requires config.edgeServers == Asked(declared, MinEdgeServers)
    requires config.loadBalancers == Asked(declared, MinLoadBalancers)
    requires |config.syncGateways| >= Asked(declared, MinSyncGateways)
    requires |config.couchbaseServers| >= Asked(declared, MinCouchbaseServers)
    requires 1 <= k <= |config.syncGateways| && config.syncGateways[k - 1].clusterIndex == k - 1
    ensures Runs(declared, config)
  {
  }

  /** Whichever cluster a test looks at: an index that calls for a second gateway or server is out
      of range there on some clusters that the markers let it run on, whatever they are. */
  lemma SecondIsNotThere(declared: Markers, a: Access, k: nat, j: nat) returns (config: Config, clusters: seq<Cluster>)
    requires a.Indexed? && (a.marker.MinSyncGateways? || a.marker.MinCouchbaseServers?) && Need(a.index) >= 2
    requires 2 <= k && j < k && Asked(declared, MinClusters) <= k
    ensures RunsOn(declared, config, clusters) && |clusters| == k
    ensures !InRange(a.index, |ListOf(clusters[j], a.marker)|)
    ensures MayBe(a.receiver, k, j) ==> !InList(a, config, clusters)
  {
    config, clusters := Spread(declared, k, if j == 0 then 1 else 0);
    NeedIsLeast(a.index, 1);
  }

  /** Any index into the servers of a later cluster is out of range on some clusters. */
  lemma NoServerThere(declared: Markers, a: Access, k: nat, j: nat) returns (config: Config, clusters: seq<Cluster>)
    requires a.Indexed? && a.marker.MinCouchbaseServers?
    requires 1 <= j < k && Asked(declared, MinClusters) <= k
    ensures RunsOn(declared, config, clusters) && |clusters| == k
    ensures !InRange(a.index, |clusters[j].couchbaseServers|)
    ensures MayBe(a.receiver, k, j) ==> !InList(a, config, clusters)
  {
    config, clusters := FirstHasServers(declared, k);
    assert !InRange(a.index, |ListOf(clusters[j], a.marker)|);
  }

  /** Exactly when an accepted test is safe on `k` clusters, whatever their lists: when there is
      just one, or when no access calls for a second gateway of any cluster, a second server of the
      first, or a server of a later one. */
  lemma AcceptedIsSafeIff(declared: Markers, accesses: set<Access>, k: nat)
    requires Safe(declared, accesses) && 1 <= k && Asked(declared, MinClusters) <= k
    ensures (forall config, clusters | RunsOn(declared, config, clusters) && |clusters| == k ::
               AllInLists(accesses, config, clusters))
            <==> k == 1 || forall a | a in accesses && a.Indexed? :: Fits(a, k)
  {
    if k == 1 {
      forall config, clusters | RunsOn(declared, config, clusters) && |clusters| == k
        ensures AllInLists(accesses, config, clusters)
      {
        OneClusterIsSafe(declared, accesses, config, clusters);
      }
    } else if a :| a in accesses && a.Indexed? && !Fits(a, k) {
      var config, clusters := NotEverywhere(declared, a, k);
    } else {
      forall config, clusters | RunsOn(declared, config, clusters) && |clusters| == k
        ensures AllInLists(accesses, config, clusters)
      {
        forall a | a in accesses && a.Indexed? ensures InList(a, config, clusters) {
          FitsIsSafe(declared, accesses, config, clusters, a);
        }
      }
    }
  }

  lemma NotEverywhere(declared: Markers, a: Access, k: nat) returns (config: Config, clusters: seq<Cluster>)
    requires a.Indexed? && !Fits(a, k) && 2 <= k && Asked(declared, MinClusters) <= k
    ensures RunsOn(declared, config, clusters) && |clusters| == k && !InList(a, config, clusters)
  {
    if a.marker.MinSyncGateways? {
      var j :| 0 <= j < k && MayBe(a.receiver, k, j);
      config, clusters := SecondIsNotThere(declared, a, k, j);
    } else {
      var j :| 0 <= j < k && MayBe(a.receiver, k, j) && !(j == 0 && Need(a.index) <= 1);
      if j == 0 {
        config, clusters := SecondIsNotThere(declared, a, k, j);
      } else {
        config, clusters := NoServerThere(declared, a, k, j);
      }
    }
  }

  /** A test that uses the first server of the first cluster, `cblpytest.clusters[0].couchbase_servers[0]`,
      is safe on any clusters once it is accepted. */
  lemma FirstServerIsSafe(declared: Markers, k: nat, env: TypeEnv)
    requires "cblpytest" in env && env["cblpytest"] == TestObject
    requires 1 <= k && Asked(declared, MinClusters) <= k && Asked(declared, MinCouchbaseServers) >= 1
    ensures var list := Attribute(Subscript(Attribute(Name("cblpytest"), "clusters"), IntConstant(0)), "couchbase_servers");
            var own := AsSet(OwnAccess(Subscript(list, IntConstant(0)), env, false));
            && own == {Indexed(MinCouchbaseServers, 0, OneCluster(Some(0)))}
            && forall config, clusters | RunsOn(declared, config, clusters) && |clusters| == k ::
                 AllInLists(own, config, clusters)
  {
    var cluster := Subscript(Attribute(Name("cblpytest"), "clusters"), IntConstant(0));
    assert InferType(Name("cblpytest"), env) == Some(TestObject);
    assert InferType(cluster, env) == Some(OneCluster(Some(0)));
    var own := {Indexed(MinCouchbaseServers, 0, OneCluster(Some(0)))};
    forall t: Topology | Admitted(declared, t) ensures AllInRange(own, t) {
      assert Count(t, MinCouchbaseServers) >= declared[MinCouchbaseServers];
    }
    AcceptedIsSafeIff(declared, own, k);
  }

  const TWO_GATEWAYS := Config(0, [GatewayInfo("a", false, 0), GatewayInfo("b", false, 1)],
                               [ServerInfo("c", 0), ServerInfo("d", 1)], 0, 0)

  const TWO_CLUSTERS := [Cluster([SyncGateway("a", false)], [CouchbaseServer("c")]),
                         Cluster([SyncGateway("b", false)], [CouchbaseServer("d")])]

  /** Two clusters of one gateway each satisfy `min_sync_gateways(2)`, so a test that uses the
      second gateway is accepted and runs, yet there is no second gateway where it looks. */
  lemma TwoClustersOfOneGateway()
    ensures var declared, a := map[MinSyncGateways := 2], Indexed(MinSyncGateways, 1, TestObject);
            && Safe(declared, {a})
            && RunsOn(declared, TWO_GATEWAYS, TWO_CLUSTERS) && !InList(a, TWO_GATEWAYS, TWO_CLUSTERS)
  {
    var declared, a := map[MinSyncGateways := 2], Indexed(MinSyncGateways, 1, TestObject);
    forall t: Topology | Admitted(declared, t) ensures AllInRange({a}, t) {
      assert Count(t, MinSyncGateways) >= declared[MinSyncGateways];
    }
    TwoClustersBuilt();
  }

  lemma TwoClustersBuilt()
    ensures BuiltBy(TWO_GATEWAYS, TWO_CLUSTERS)
  {
    var all := Entries(TWO_GATEWAYS.syncGateways, TWO_GATEWAYS.couchbaseServers);
    assert all == [(SyncGateway("a", false), 0), (SyncGateway("b", false), 1),
                   (CouchbaseServer("c"), 0), (CouchbaseServer("d"), 1)];
    TwoAndTwo(all, SyncGateway("a", false), SyncGateway("b", false), CouchbaseServer("c"), CouchbaseServer("d"));
  }

  lemma TwoAndTwo(all: History, a: Entry, b: Entry, c: Entry, d: Entry)
    requires a.SyncGateway? && b.SyncGateway? && !c.SyncGateway? && !d.SyncGateway?
    requires all == [(a, 0), (b, 1), (c, 0), (d, 1)]
    ensures IsBuilt([Cluster([a], [c]), Cluster([b], [d])], all)
  {
    var clusters := [Cluster([a], [c]), Cluster([b], [d])];
    PickedOne(all, true, 0, 0);
    PickedOne(all, true, 1, 1);
    PickedOne(all, false, 0, 2);
    PickedOne(all, false, 1, 3);
    assert IsCluster(clusters[0], all, 0) && IsCluster(clusters[1], all, 1);
  }

  /** A test whose markers the checker accepts, on clusters built from the configuration: it is
      skipped, or on one cluster every traced constant index is in range of the list it is used
      on, and on more clusters every index that fits there. */
  method CheckedTestRunsInRange(name: string, classes: seq<Markers>, own: Markers, g: Graph, test: nat, autouse: seq<nat>,
                                config: Config)
    returns (violations: seq<Violation>, runs: bool, clusters: Option<seq<Cluster>>)
    requires Closed(g) && test in g && forall i | 0 <= i < |autouse| :: autouse[i] in g
    requires "test_" <= name
    ensures violations == [] && runs && clusters.Some? ==>
              forall a | a in AccessesIn(g, RunsFor(g, test, autouse)) && a.Indexed? && clusters.value != [] ::
                |clusters.value| == 1 || Fits(a, |clusters.value|) ==> InList(a, config, clusters.value)
    ensures clusters.None? ==> forall any :: !BuiltBy(config, any)
  {
    violations := CheckFunction(name, classes, own, g, test, autouse);
    var declared := Declared(classes, own);
    clusters := MakeClusters(config.syncGateways, config.couchbaseServers);
    runs := RuntimeSetup(declared, config);
    if violations == [] && runs && clusters.Some? && clusters.value != [] {
      AcceptedTest(declared, AccessesIn(g, RunsFor(g, test, autouse)), config, clusters.value);
    }
  }

  lemma AcceptedTest(declared: Markers, accesses: set<Access>, config: Config, clusters: seq<Cluster>)
    requires Safe(declared, accesses) && RunsOn(declared, config, clusters) && clusters != []
    ensures forall a | a in accesses && a.Indexed? :: |clusters| == 1 || Fits(a, |clusters|) ==> InList(a, config, clusters)
  {
    if |clusters| == 1 {
      OneClusterIsSafe(declared, accesses, config, clusters);
    }
    forall a | a in accesses && a.Indexed? && Fits(a, |clusters|) ensures InList(a, config, clusters) {
      FitsIsSafe(declared, accesses, config, clusters, a);
    }
  }
}

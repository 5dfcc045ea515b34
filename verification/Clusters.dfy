/** Building clusters from configuration entries, and the runtime check for a number of clusters. */
module Clusters {
  import opened Wrappers

  datatype Entry = SyncGateway(name: string, usingRosmar: bool) | CouchbaseServer(name: string)

  datatype Cluster = Cluster(syncGateways: seq<Entry>, couchbaseServers: seq<Entry>)

  type History = seq<(Entry, int)>

  /** The entries of one kind added for cluster `idx`, in the order they were added. */
  function Picked(added: History, gateways: bool, idx: int): seq<Entry> {
    if added == [] then []
    else
      var (entry, i) := added[|added| - 1];
      Picked(added[..|added| - 1], gateways, idx)
      + if entry.SyncGateway? == gateways && i == idx then [entry] else []
  }

  /** Entry `n` is one of that kind for that cluster. */
  predicate IsFor(added: History, n: nat, gateways: bool, idx: int)
    requires n < |added|
  {
    added[n].0.SyncGateway? == gateways && added[n].1 == idx
  }

  predicate HasIndex(added: History, gateways: bool, idx: int) {
    exists n | 0 <= n < |added| :: IsFor(added, n, gateways, idx)
  }

  lemma {:induction false} PickedSome(added: History, gateways: bool, idx: int)
    ensures Picked(added, gateways, idx) != [] <==> HasIndex(added, gateways, idx)
  {
    if added != [] {
      var most := added[..|added| - 1];
      PickedSome(most, gateways, idx);
      if HasIndex(most, gateways, idx) {
        var n :| 0 <= n < |most| && IsFor(most, n, gateways, idx);
        assert IsFor(added, n, gateways, idx);
      }
      if IsFor(added, |most|, gateways, idx) {
        assert HasIndex(added, gateways, idx);
      } else if HasIndex(added, gateways, idx) {
        var n :| 0 <= n < |added| && IsFor(added, n, gateways, idx);
        assert IsFor(most, n, gateways, idx);
      }
    }
  }

  /** A single entry of a kind for a cluster is all that is picked for it. */
  lemma {:induction false} PickedOne(added: History, gateways: bool, idx: int, n: nat)
    requires n < |added| && forall m | 0 <= m < |added| :: IsFor(added, m, gateways, idx) <==> m == n
    ensures Picked(added, gateways, idx) == [added[n].0]
  {
    var most := added[..|added| - 1];
    assert forall m | 0 <= m < |most| :: IsFor(most, m, gateways, idx) <==> IsFor(added, m, gateways, idx);
    assert IsFor(added, |added| - 1, gateways, idx) <==> |added| - 1 == n;
    if n < |most| {
      PickedOne(most, gateways, idx, n);
    } else {
      PickedSome(most, gateways, idx);
    }
  }

  /** The entries picked are those of the kind and the index, in their order. */
  lemma {:induction false} PickedInOrder(added: History, gateways: bool, idx: int, n: nat, m: nat)
    requires n < m < |added| && IsFor(added, n, gateways, idx) && IsFor(added, m, gateways, idx)
    requires forall k | 0 <= k < |added| && IsFor(added, k, gateways, idx) :: k == n || k == m
    ensures Picked(added, gateways, idx) == [added[n].0, added[m].0]
  {
    var most := added[..|added| - 1];
    assert forall k | 0 <= k < |most| :: IsFor(most, k, gateways, idx) <==> IsFor(added, k, gateways, idx);
    assert IsFor(added, |added| - 1, gateways, idx) <==> |added| - 1 == m;
    if m < |most| {
      PickedInOrder(most, gateways, idx, n, m);
    } else {
      PickedOne(most, gateways, idx, n);
    }
  }

  /** The index lists of one kind: one list for each index that occurs. */
  ghost predicate Grouped(lists: map<int, seq<Entry>>, added: History, gateways: bool) {
    && (forall idx: int :: idx in lists <==> Picked(added, gateways, idx) != [])
    && (forall idx | idx in lists :: lists[idx] == Picked(added, gateways, idx))
  }

  function ListAt(lists: map<int, seq<Entry>>, idx: int): seq<Entry> {
    if idx in lists then lists[idx] else []
  }

  lemma PickedMore(added: History, gateways: bool, idx: int, entry: Entry, at: int)
    ensures Picked(added + [(entry, at)], gateways, idx)
            == Picked(added, gateways, idx) + if entry.SyncGateway? == gateways && at == idx then [entry] else []
  {
    assert (added + [(entry, at)])[..|added|] == added;
  }

  function Appended(lists: map<int, seq<Entry>>, gateways: bool, entry: Entry, at: int): map<int, seq<Entry>> {
    if entry.SyncGateway? == gateways then lists[at := ListAt(lists, at) + [entry]] else lists
  }

  lemma AddedOne(lists: map<int, seq<Entry>>, added: History, gateways: bool, entry: Entry, at: int)
    requires Grouped(lists, added, gateways)
    ensures Grouped(Appended(lists, gateways, entry, at), added + [(entry, at)], gateways)
  {
    forall idx: int
      ensures var list := Picked(added + [(entry, at)], gateways, idx);
              && (idx in Appended(lists, gateways, entry, at) <==> list != [])
              && (idx in Appended(lists, gateways, entry, at) ==> Appended(lists, gateways, entry, at)[idx] == list)
    {
      AddedAt(lists, added, gateways, entry, at, idx);
    }
  }

  lemma AddedAt(lists: map<int, seq<Entry>>, added: History, gateways: bool, entry: Entry, at: int, idx: int)
    requires idx in lists <==> Picked(added, gateways, idx) != []
    requires idx in lists ==> lists[idx] == Picked(added, gateways, idx)
    ensures var list := Picked(added + [(entry, at)], gateways, idx);
            && (idx in Appended(lists, gateways, entry, at) <==> list != [])
            && (idx in Appended(lists, gateways, entry, at) ==> Appended(lists, gateways, entry, at)[idx] == list)
  {
    PickedMore(added, gateways, idx, entry, at);
    assert ListAt(lists, idx) == Picked(added, gateways, idx);
    assert ListAt(lists, idx) + [] == ListAt(lists, idx);
  }

  // ---------------------------------------------------------------- which entries make clusters

  /** The indexes of `d` are 0, 1, 2 and so on without a gap. */
  predicate Contiguous(d: map<int, seq<Entry>>) {
    forall i | 0 <= i < |d| :: i in d
  }

  ghost function Range(n: nat): set<int> {
    if n == 0 then {} else Range(n - 1) + {n - 1}
  }

  lemma {:induction false} RangeSize(n: nat)
    ensures |Range(n)| == n && forall i :: i in Range(n) <==> 0 <= i < n
  {
    if n > 0 {
      RangeSize(n - 1);
    }
  }

  lemma SubsetSize(a: set<int>, b: set<int>)
    requires a <= b
    ensures |a| <= |b|
  {
    assert b == a + (b - a);
    assert |b| == |a| + |b - a|;
  }

  /** No index is missing, so there is none below or beyond. */
  lemma NoneBeyond(d: map<int, seq<Entry>>)
    requires Contiguous(d)
    ensures forall i | i in d :: 0 <= i < |d|
  {
    var range := Range(|d|);
    RangeSize(|d|);
    forall i | i in range ensures i in d.Keys {
    }
    assert d.Keys == range + (d.Keys - range);
    assert |d.Keys| == |range| + |d.Keys - range|;
  }

  /** Gateways need a server, unless there is just one and it uses Rosmar. */
  predicate CanForm(gateways: seq<Entry>, servers: seq<Entry>) {
    && gateways != []
    && (servers != [] || (|gateways| == 1 && gateways[0].SyncGateway? && gateways[0].usingRosmar))
  }

  /** The constructor of a cluster, or None where it raises. */
  method FormCluster(gateways: seq<Entry>, servers: seq<Entry>) returns (r: Option<Cluster>)
    requires forall i | 0 <= i < |gateways| :: gateways[i].SyncGateway?
    ensures r == if CanForm(gateways, servers) then Some(Cluster(gateways, servers)) else None
    ensures gateways == [] ==> r == None
    ensures gateways != [] && servers != [] ==> r.Some?
    ensures |gateways| >= 2 && servers == [] ==> r == None
    ensures |gateways| == 1 && servers == [] ==> (r.Some? <==> gateways[0].usingRosmar)
  {
    if gateways == [] {
      return None;
    }
    var couchbaseServers: seq<Entry> := [];
    if |servers| > 0 {
      couchbaseServers := servers;
    } else if |gateways| > 1 {
      return None;
    } else if !gateways[0].usingRosmar {
      return None;
    }
    r := Some(Cluster(gateways, couchbaseServers));
  }

  /** What `build` asks of the lists. */
  predicate CanBuild(sgw: map<int, seq<Entry>>, cbs: map<int, seq<Entry>>) {
    && |cbs| <= |sgw| && Contiguous(sgw) && Contiguous(cbs)
    && forall i | 0 <= i < |sgw| :: CanForm(ListAt(sgw, i), ListAt(cbs, i))
  }

  /** `c` is the cluster number `k`, and has what it needs. */
  predicate IsCluster(c: Cluster, added: History, k: nat) {
    c == Cluster(Picked(added, true, k), Picked(added, false, k)) && CanForm(c.syncGateways, c.couchbaseServers)
  }

  ghost predicate FirstClusters(clusters: seq<Cluster>, added: History) {
    forall k | 0 <= k < |clusters| :: IsCluster(clusters[k], added, k)
  }

  lemma OneMoreCluster(clusters: seq<Cluster>, added: History, c: Cluster)
    requires FirstClusters(clusters, added) && IsCluster(c, added, |clusters|)
    ensures FirstClusters(clusters + [c], added)
  {
  }

  /** The entries arranged in clusters: each is in the cluster of its index, in the order of
      addition, and nowhere else; each cluster has what it needs. */
  ghost predicate IsArrangement(clusters: seq<Cluster>, added: History) {
    && FirstClusters(clusters, added)
    && (forall n | 0 <= n < |added| :: 0 <= added[n].1 < |clusters|)
  }

  /** No cluster without servers precedes one with servers. */
  predicate ServersFirst(clusters: seq<Cluster>) {
    forall j, k | 0 <= j < k < |clusters| && clusters[k].couchbaseServers != [] :: clusters[j].couchbaseServers != []
  }

  /** What `build` makes of the entries. */
  ghost predicate IsBuilt(clusters: seq<Cluster>, added: History) {
    IsArrangement(clusters, added) && ServersFirst(clusters)
  }

  /** The clusters built, or a refusal: then there is no arrangement, or only one in which a cluster
      without servers precedes one with servers. */
  ghost predicate BuildsTo(added: History, r: Option<seq<Cluster>>) {
    match r
    case Some(clusters) => IsBuilt(clusters, added)
    case None => forall clusters | IsArrangement(clusters, added) :: !ServersFirst(clusters)
  }

  class ClusterBuilder {
    var sgw: map<int, seq<Entry>>
    var cbs: map<int, seq<Entry>>
    ghost var added: History

    ghost predicate Valid()
      reads this
    {
      Grouped(sgw, added, true) && Grouped(cbs, added, false)
    }

    constructor ()
      ensures Valid() && added == []
    {
      sgw, cbs, added := map[], map[], [];
    }

    method AddEntry(entry: Entry, idx: int)
      requires Valid()
      modifies this
      ensures Valid() && added == old(added) + [(entry, idx)]
    {
      AddedOne(sgw, added, true, entry, idx);
      AddedOne(cbs, added, false, entry, idx);
      if entry.SyncGateway? {
        sgw := sgw[idx := (if idx in sgw then sgw[idx] else []) + [entry]];
      } else {
        cbs := cbs[idx := (if idx in cbs then cbs[idx] else []) + [entry]];
      }
      added := added + [(entry, idx)];
    }

    /** The clusters, or None where validation or the constructor of a cluster raises. */
    method Build() returns (r: Option<seq<Cluster>>)
      requires Valid()
      ensures r.Some? <==> CanBuild(sgw, cbs)
      ensures BuildsTo(added, r)
    {
      RefusedForGood(sgw, cbs, added);
      var sgwCount, cbsCount := |sgw|, |cbs|;
      if sgwCount < cbsCount || !Contiguous(sgw) || !Contiguous(cbs) {
        return None;
      }
      r := FormClusters(sgw, cbs, added);
      if r.Some? {
        BuiltFrom(r.value, sgw, cbs, added);
      }
    }
  }

  /** The cluster loop of `build`. */
  method FormClusters(sgw: map<int, seq<Entry>>, cbs: map<int, seq<Entry>>, ghost added: History)
    returns (r: Option<seq<Cluster>>)
    requires Grouped(sgw, added, true) && Grouped(cbs, added, false)
    requires Contiguous(sgw) && Contiguous(cbs)
    ensures r.Some? ==> |r.value| == |sgw| && FirstClusters(r.value, added)
    ensures r.None? ==> !CanBuild(sgw, cbs)
  {
    var clusters: seq<Cluster> := [];
    for idx := 0 to |sgw|
      invariant |clusters| == idx && FirstClusters(clusters, added)
    {
      ListsAt(sgw, cbs, added, idx);
      var gateways, servers := sgw[idx], if idx >= |cbs| then [] else cbs[idx];
      var cluster := FormCluster(gateways, servers);
      if cluster.None? {
        assert !CanForm(ListAt(sgw, idx), ListAt(cbs, idx));
        return None;
      }
      OneMoreCluster(clusters, added, cluster.value);
      clusters := clusters + [cluster.value];
    }
    r := Some(clusters);
  }

  lemma {:induction false} PickedKind(added: History, gateways: bool, idx: int)
    ensures forall i | 0 <= i < |Picked(added, gateways, idx)| :: Picked(added, gateways, idx)[i].SyncGateway? == gateways
  {
    if added != [] {
      PickedKind(added[..|added| - 1], gateways, idx);
    }
  }

  lemma ListsAt(sgw: map<int, seq<Entry>>, cbs: map<int, seq<Entry>>, added: History, idx: nat)
    requires Grouped(sgw, added, true) && Grouped(cbs, added, false)
    requires Contiguous(sgw) && Contiguous(cbs) && idx < |sgw|
    ensures idx in sgw && sgw[idx] == Picked(added, true, idx)
    ensures forall i | 0 <= i < |sgw[idx]| :: sgw[idx][i].SyncGateway?
    ensures idx < |cbs| ==> idx in cbs
    ensures (if idx >= |cbs| then [] else cbs[idx]) == ListAt(cbs, idx) == Picked(added, false, idx)
  {
    NoneBeyond(cbs);
    PickedKind(added, true, idx);
  }

  lemma BuiltFrom(clusters: seq<Cluster>, sgw: map<int, seq<Entry>>, cbs: map<int, seq<Entry>>, added: History)
    requires Grouped(sgw, added, true) && Grouped(cbs, added, false)
    requires Contiguous(sgw) && Contiguous(cbs) && |clusters| == |sgw| && |cbs| <= |sgw|
    requires FirstClusters(clusters, added)
    ensures IsBuilt(clusters, added) && CanBuild(sgw, cbs)
  {
    NoneBeyond(sgw);
    NoneBeyond(cbs);
    forall n | 0 <= n < |added| ensures 0 <= added[n].1 < |clusters| {
      var gateways := added[n].0.SyncGateway?;
      assert IsFor(added, n, gateways, added[n].1);
      PickedSome(added, gateways, added[n].1);
    }
    forall i | 0 <= i < |sgw| ensures CanForm(ListAt(sgw, i), ListAt(cbs, i)) {
      assert clusters[i] == Cluster(ListAt(sgw, i), ListAt(cbs, i));
    }
    forall k | 0 <= k < |clusters| && clusters[k].couchbaseServers != [] ensures k < |cbs| {
      assert k in cbs;
    }
    forall j | 0 <= j < |cbs| ensures clusters[j].couchbaseServers != [] {
      assert j in cbs;
    }
  }

  lemma PickedInside(clusters: seq<Cluster>, added: History, gateways: bool, idx: int)
    requires IsArrangement(clusters, added) && Picked(added, gateways, idx) != []
    ensures 0 <= idx < |clusters|
  {
    PickedSome(added, gateways, idx);
    var n :| 0 <= n < |added| && IsFor(added, n, gateways, idx);
  }

  /** The lists of built clusters are found under their indexes, and there are no others. */
  lemma ListsOfBuilt(clusters: seq<Cluster>, lists: map<int, seq<Entry>>, added: History, gateways: bool)
    requires Grouped(lists, added, gateways) && IsArrangement(clusters, added)
    ensures lists.Keys <= Range(|clusters|)
    ensures forall k | 0 <= k < |clusters| ::
              ListAt(lists, k) == if gateways then clusters[k].syncGateways else clusters[k].couchbaseServers
    ensures gateways ==> lists.Keys == Range(|clusters|) && |lists| == |clusters|
  {
    RangeSize(|clusters|);
    forall idx | idx in lists ensures idx in Range(|clusters|) {
      PickedInside(clusters, added, gateways, idx);
    }
    if gateways {
      forall idx | idx in Range(|clusters|) ensures idx in lists {
        assert CanForm(clusters[idx].syncGateways, clusters[idx].couchbaseServers);
      }
      assert lists.Keys == Range(|clusters|);
    }
  }

  /** An arrangement is accepted exactly when no cluster without servers precedes one with servers. */
  lemma ArrangementAccepted(clusters: seq<Cluster>, sgw: map<int, seq<Entry>>, cbs: map<int, seq<Entry>>, added: History)
    requires Grouped(sgw, added, true) && Grouped(cbs, added, false) && IsArrangement(clusters, added)
    ensures CanBuild(sgw, cbs) <==> ServersFirst(clusters)
  {
    if ServersFirst(clusters) {
      OnlyBuildable(clusters, sgw, cbs, added);
    }
    if CanBuild(sgw, cbs) {
      ListsOfBuilt(clusters, cbs, added, false);
      forall j, k | 0 <= j < k < |clusters| && clusters[k].couchbaseServers != []
        ensures clusters[j].couchbaseServers != []
      {
        NoGap(cbs, j, k);
      }
    }
  }

  lemma NoGap(cbs: map<int, seq<Entry>>, j: nat, k: nat)
    requires Contiguous(cbs) && j < k && k in cbs
    ensures j in cbs
  {
    NoneBeyond(cbs);
  }

  lemma OnlyBuildable(clusters: seq<Cluster>, sgw: map<int, seq<Entry>>, cbs: map<int, seq<Entry>>, added: History)
    requires Grouped(sgw, added, true) && Grouped(cbs, added, false)
    requires IsArrangement(clusters, added) && ServersFirst(clusters)
    ensures CanBuild(sgw, cbs)
  {
    ListsOfBuilt(clusters, sgw, added, true);
    ListsOfBuilt(clusters, cbs, added, false);
    RangeSize(|clusters|);
    SubsetSize(cbs.Keys, Range(|clusters|));
    forall i | 0 <= i < |sgw| ensures i in sgw && CanForm(ListAt(sgw, i), ListAt(cbs, i)) {
      assert i in Range(|clusters|);
      assert CanForm(clusters[i].syncGateways, clusters[i].couchbaseServers);
    }
    forall i | 0 <= i < |cbs| ensures i in cbs {
      if i !in cbs {
        ServersEnd(clusters, cbs, added, i);
      }
    }
  }

  /** Below a cluster without servers there are as many server lists as clusters, or fewer. */
  lemma ServersEnd(clusters: seq<Cluster>, cbs: map<int, seq<Entry>>, added: History, i: nat)
    requires Grouped(cbs, added, false) && IsArrangement(clusters, added) && ServersFirst(clusters)
    requires i < |clusters| && i !in cbs
    ensures |cbs| <= i
  {
    ListsOfBuilt(clusters, cbs, added, false);
    RangeSize(|clusters|);
    RangeSize(i);
    forall k | k in cbs.Keys ensures k in Range(i) {
      assert k in Range(|clusters|);
      assert ListAt(cbs, k) == cbs[k] == Picked(added, false, k);
      ServersBefore(clusters, i, k);
    }
    SubsetSize(cbs.Keys, Range(i));
  }

  lemma ServersBefore(clusters: seq<Cluster>, i: nat, k: nat)
    requires ServersFirst(clusters) && i < |clusters| && k < |clusters|
    requires clusters[i].couchbaseServers == [] && clusters[k].couchbaseServers != []
    ensures k < i
  {
  }

  /** Lists that are refused cannot be arranged in clusters, or only so that a cluster without
      servers precedes one with servers. */
  lemma RefusedForGood(sgw: map<int, seq<Entry>>, cbs: map<int, seq<Entry>>, added: History)
    requires Grouped(sgw, added, true) && Grouped(cbs, added, false)
    ensures !CanBuild(sgw, cbs) ==> forall clusters | IsArrangement(clusters, added) :: !ServersFirst(clusters)
  {
    forall clusters | IsArrangement(clusters, added) ensures CanBuild(sgw, cbs) <==> ServersFirst(clusters) {
      ArrangementAccepted(clusters, sgw, cbs, added);
    }
  }

  /** There is no choice: the entries can be arranged in one way only, if at all. */
  lemma OneArrangement(a: seq<Cluster>, b: seq<Cluster>, added: History)
    requires IsArrangement(a, added) && IsArrangement(b, added)
    ensures a == b
  {
    NotLonger(a, b, added);
    NotLonger(b, a, added);
    forall k | 0 <= k < |a| ensures a[k] == b[k] {
      assert IsCluster(a[k], added, k) && IsCluster(b[k], added, k);
    }
  }

  lemma NotLonger(a: seq<Cluster>, b: seq<Cluster>, added: History)
    requires IsArrangement(a, added) && IsArrangement(b, added)
    ensures |a| <= |b|
  {
    if |a| > 0 {
      assert IsCluster(a[|a| - 1], added, |a| - 1);
      PickedInside(b, added, true, |a| - 1);
    }
  }

  // ---------------------------------------------------------------- nothing is lost

  /** The number of entries of a kind in the first `n` clusters. */
  ghost function Total(added: History, gateways: bool, n: nat): nat {
    if n == 0 then 0 else Total(added, gateways, n - 1) + |Picked(added, gateways, n - 1)|
  }

  /** The number of entries of a kind. */
  function CountOf(added: History, gateways: bool): nat {
    if added == [] then 0
    else CountOf(added[..|added| - 1], gateways) + if added[|added| - 1].0.SyncGateway? == gateways then 1 else 0
  }

  /** Nothing is lost or duplicated: the clusters hold as many entries of each kind as were added. */
  lemma {:induction false} CountsAddUp(added: History, gateways: bool, n: nat)
    requires forall k | 0 <= k < |added| :: 0 <= added[k].1 < n
    ensures Total(added, gateways, n) == CountOf(added, gateways)
  {
    if added == [] {
      TotalOfNone(gateways, n);
    } else {
      var most := added[..|added| - 1];
      assert forall k | 0 <= k < |most| :: most[k] == added[k];
      CountsAddUp(most, gateways, n);
      TotalStep(added, gateways, n);
    }
  }

  lemma {:induction false} TotalOfNone(gateways: bool, n: nat)
    ensures Total([], gateways, n) == 0
  {
    if n > 0 {
      TotalOfNone(gateways, n - 1);
    }
  }

  lemma {:induction false} TotalStep(added: History, gateways: bool, n: nat)
    requires added != [] && added[|added| - 1].1 >= 0
    ensures Total(added, gateways, n)
            == Total(added[..|added| - 1], gateways, n)
               + if added[|added| - 1].0.SyncGateway? == gateways && added[|added| - 1].1 < n then 1 else 0
  {
    if n > 0 {
      TotalStep(added, gateways, n - 1);
      assert |Picked(added, gateways, n - 1)|
          == |Picked(added[..|added| - 1], gateways, n - 1)|
             + if added[|added| - 1].0.SyncGateway? == gateways && added[|added| - 1].1 == n - 1 then 1 else 0;
    }
  }

  // ---------------------------------------------------------------- the configuration

  datatype GatewayInfo = GatewayInfo(name: string, usingRosmar: bool, clusterIndex: int)

  datatype ServerInfo = ServerInfo(name: string, clusterIndex: int)

  /** The entries of a configuration in the order they are added: gateways first. */
  function Entries(gateways: seq<GatewayInfo>, servers: seq<ServerInfo>): History {
    seq(|gateways|, i requires 0 <= i < |gateways| =>
      (SyncGateway(gateways[i].name, gateways[i].usingRosmar), gateways[i].clusterIndex))
    + seq(|servers|, i requires 0 <= i < |servers| => (CouchbaseServer(servers[i].name), servers[i].clusterIndex))
  }

  lemma {:induction false} EntriesCount(gateways: seq<GatewayInfo>, servers: seq<ServerInfo>)
    ensures CountOf(Entries(gateways, servers), true) == |gateways|
    ensures CountOf(Entries(gateways, servers), false) == |servers|
    decreases |gateways| + |servers|
  {
    var all := Entries(gateways, servers);
    if servers != [] {
      EntriesCount(gateways, servers[..|servers| - 1]);
      assert all[..|all| - 1] == Entries(gateways, servers[..|servers| - 1]);
    } else if gateways != [] {
      EntriesCount(gateways[..|gateways| - 1], servers);
      assert all[..|all| - 1] == Entries(gateways[..|gateways| - 1], servers);
    }
  }

  lemma GatewayAdded(gateways: seq<GatewayInfo>, i: nat)
    requires i < |gateways|
    ensures Entries(gateways[..i + 1], [])
            == Entries(gateways[..i], [])
               + [(SyncGateway(gateways[i].name, gateways[i].usingRosmar), gateways[i].clusterIndex)]
  {
  }

  lemma ServerAdded(gateways: seq<GatewayInfo>, servers: seq<ServerInfo>, i: nat)
    requires i < |servers|
    ensures Entries(gateways, servers[..i + 1])
            == Entries(gateways, servers[..i]) + [(CouchbaseServer(servers[i].name), servers[i].clusterIndex)]
  {
  }

  /** The clusters of a configuration, or None where building them raises. */
  method MakeClusters(gateways: seq<GatewayInfo>, servers: seq<ServerInfo>) returns (r: Option<seq<Cluster>>)
    ensures BuildsTo(Entries(gateways, servers), r)
  {
    var builder := new ClusterBuilder();
    for i := 0 to |gateways|
      invariant fresh(builder) && builder.Valid() && builder.added == Entries(gateways[..i], [])
    {
      builder.AddEntry(SyncGateway(gateways[i].name, gateways[i].usingRosmar), gateways[i].clusterIndex);
      GatewayAdded(gateways, i);
    }
    assert gateways[..|gateways|] == gateways && servers[..0] == [];
    for i := 0 to |servers|
      invariant fresh(builder) && builder.Valid() && builder.added == Entries(gateways, servers[..i])
    {
      builder.AddEntry(CouchbaseServer(servers[i].name), servers[i].clusterIndex);
      ServerAdded(gateways, servers, i);
    }
    assert servers[..|servers|] == servers;
    r := builder.Build();
  }

  const ROSMAR_FIRST := [GatewayInfo("a", true, 0), GatewayInfo("b", false, 1)]

  const ROSMAR_CLUSTERS := [Cluster([SyncGateway("a", true)], []),
                            Cluster([SyncGateway("b", false)], [CouchbaseServer("s")])]

  /** A cluster of one gateway that uses Rosmar, and one of a gateway with a server: both have what
      they need, yet in this order they are refused. */
  lemma RosmarFirstRefused(r: Option<seq<Cluster>>)
    requires BuildsTo(Entries(ROSMAR_FIRST, [ServerInfo("s", 1)]), r)
    ensures IsArrangement(ROSMAR_CLUSTERS, Entries(ROSMAR_FIRST, [ServerInfo("s", 1)]))
    ensures r == None
  {
    var all := Entries(ROSMAR_FIRST, [ServerInfo("s", 1)]);
    assert all == [(SyncGateway("a", true), 0), (SyncGateway("b", false), 1), (CouchbaseServer("s"), 1)];
    RosmarArranged(all, SyncGateway("a", true), SyncGateway("b", false), CouchbaseServer("s"));
    assert ROSMAR_CLUSTERS[1].couchbaseServers != [] && ROSMAR_CLUSTERS[0].couchbaseServers == [];
    if r.Some? {
      OneArrangement(r.value, ROSMAR_CLUSTERS, all);
    }
  }

  lemma RosmarArranged(all: History, a: Entry, b: Entry, s: Entry)
    requires a.SyncGateway? && a.usingRosmar && b.SyncGateway? && !s.SyncGateway?
    requires all == [(a, 0), (b, 1), (s, 1)]
    ensures IsArrangement([Cluster([a], []), Cluster([b], [s])], all)
  {
    var clusters := [Cluster([a], []), Cluster([b], [s])];
    PickedOfThree(a, 0, b, 1, s, 1, true, 0);
    PickedOfThree(a, 0, b, 1, s, 1, true, 1);
    PickedOfThree(a, 0, b, 1, s, 1, false, 0);
    PickedOfThree(a, 0, b, 1, s, 1, false, 1);
    assert IsCluster(clusters[0], all, 0) && IsCluster(clusters[1], all, 1);
  }

  function If(b: bool, e: Entry): seq<Entry> { if b then [e] else [] }

  lemma PickedOfThree(a: Entry, i: int, b: Entry, j: int, c: Entry, k: int, gateways: bool, idx: int)
    ensures Picked([(a, i), (b, j), (c, k)], gateways, idx)
            == If(a.SyncGateway? == gateways && i == idx, a) + If(b.SyncGateway? == gateways && j == idx, b)
               + If(c.SyncGateway? == gateways && k == idx, c)
  {
    PickedMore([], gateways, idx, a, i);
    PickedMore([(a, i)], gateways, idx, b, j);
    PickedMore([(a, i), (b, j)], gateways, idx, c, k);
    assert [] + [(a, i)] == [(a, i)];
    assert [(a, i)] + [(b, j)] == [(a, i), (b, j)];
    assert [(a, i), (b, j)] + [(c, k)] == [(a, i), (b, j), (c, k)];
  }

  // ---------------------------------------------------------------- the runtime check

  /** `check_clusters`: whether the test runs. */
  method CheckClusters(requested: int, gateways: seq<GatewayInfo>) returns (runs: bool)
    ensures runs <==> exists i | 0 <= i < |gateways| :: gateways[i].clusterIndex >= requested - 1
  {
    var minimum := requested - 1;
    var maxFound := 0;
    for i := 0 to |gateways|
      invariant forall j | 0 <= j < i :: gateways[j].clusterIndex < minimum && gateways[j].clusterIndex + 1 <= maxFound
    {
      var index := gateways[i].clusterIndex;
      if index + 1 > maxFound {
        maxFound := index + 1;
      }
      if index >= minimum {
        return true;
      }
    }
    runs := false;
  }

  /** When the clusters could be built, the runtime check lets a test run exactly when there are as
      many clusters as requested, and at least one. */
  lemma CheckCountsClusters(clusters: seq<Cluster>, gateways: seq<GatewayInfo>, servers: seq<ServerInfo>, requested: int)
    requires IsBuilt(clusters, Entries(gateways, servers))
    ensures (exists i | 0 <= i < |gateways| :: gateways[i].clusterIndex >= requested - 1)
            <==> |clusters| >= requested && |clusters| >= 1
  {
    var all := Entries(gateways, servers);
    assert forall i | 0 <= i < |gateways| :: all[i].1 == gateways[i].clusterIndex;
    if |clusters| >= requested && |clusters| >= 1 {
      var last := |clusters| - 1;
      PickedSome(all, true, last);
      assert IsCluster(clusters[last], all, last);
      var n :| 0 <= n < |all| && IsFor(all, n, true, last);
      assert gateways[n].clusterIndex >= requested - 1;
    }
  }

  // ---------------------------------------------------------------- the lists of the first cluster

  /** `min_sync_gateways` counts the gateways of all clusters, while a test sees those of the first.
      The two numbers agree exactly when there is at most one cluster. */
  lemma MarkerCountsAllClusters(clusters: seq<Cluster>, gateways: seq<GatewayInfo>, servers: seq<ServerInfo>)
    requires IsBuilt(clusters, Entries(gateways, servers))
    ensures (if clusters == [] then 0 else |clusters[0].syncGateways|) == |gateways| <==> |clusters| <= 1
    ensures |clusters| <= 1 ==> (if clusters == [] then 0 else |clusters[0].couchbaseServers|) == |servers|
  {
    var all := Entries(gateways, servers);
    EntriesCount(gateways, servers);
    CountsAddUp(all, true, |clusters|);
    CountsAddUp(all, false, |clusters|);
    if |clusters| > 0 {
      TotalGrows(clusters, all, |clusters|);
    }
  }

  lemma {:induction false} TotalGrows(clusters: seq<Cluster>, added: History, n: nat)
    requires IsBuilt(clusters, added) && 1 <= n <= |clusters|
    ensures Total(added, true, n) >= |clusters[0].syncGateways| + (n - 1)
    ensures n == 1 ==> Total(added, true, n) == |clusters[0].syncGateways|
    ensures n == 1 ==> Total(added, false, n) == |clusters[0].couchbaseServers|
  {
    if n > 1 {
      TotalGrows(clusters, added, n - 1);
      assert clusters[n - 1].syncGateways != [];
    }
  }
}

/** Checking a test's declared topology markers against the usage found by the scan. */
module MarkerCheck {
  import opened Wrappers
  import opened UsageScan

  const MIN_CLUSTERS_THRESHOLD := 2

  type Markers = map<Marker, nat>

  datatype Violation =
    | NotDeclared(marker: Marker, needed: int)
    | TooLow(marker: Marker, have: int, needed: int)
    | ListNotDeclared(marker: Marker)

  // ---------------------------------------------------------------- declared markers

  /** The marker that pytest finds closest to the test: on it, or on the innermost class with one. */
  function Closest(classes: seq<Markers>, own: Markers, m: Marker): Option<nat> {
    if m in own then Some(own[m])
    else if classes == [] then None
    else if m in classes[|classes| - 1] then Some(classes[|classes| - 1][m])
    else Closest(classes[..|classes| - 1], own, m)
  }

  function Get(declared: Markers, m: Marker): Option<nat> {
    if m in declared then Some(declared[m]) else None
  }

  function Updated(classes: seq<Markers>): Markers {
    if classes == [] then map[] else Updated(classes[..|classes| - 1]) + classes[|classes| - 1]
  }

  /** The markers that apply to a test on which `own` are set, in nested classes, outermost first. */
  function Effective(classes: seq<Markers>, own: Markers): Markers { Updated(classes) + own }

  /** Updating from the outermost class inwards, and last from the test itself, gives for each
      marker the one that pytest finds closest. */
  lemma {:induction false} EffectiveIsClosest(classes: seq<Markers>, own: Markers, m: Marker)
    ensures Get(Effective(classes, own), m) == Closest(classes, own, m)
  {
    if classes != [] {
      EffectiveIsClosest(classes[..|classes| - 1], own, m);
    }
  }

  /** What is on the test prevails over all classes, and an inner class over those around it. */
  lemma InnermostPrevails(classes: seq<Markers>, inner: Markers, own: Markers, m: Marker)
    ensures Get(Effective(classes + [inner], own), m)
            == if m in own then Some(own[m]) else if m in inner then Some(inner[m]) else Get(Effective(classes, map[]), m)
  {
    assert (classes + [inner])[..|classes|] == classes;
  }

  method Declared(classes: seq<Markers>, own: Markers) returns (declared: Markers)
    ensures declared == Effective(classes, own)
  {
    declared := map[];
    for i := 0 to |classes|
      invariant declared == Updated(classes[..i])
    {
      assert classes[..i + 1][..i] == classes[..i];
      declared := declared + classes[i];
    }
    assert classes[..|classes|] == classes;
    declared := declared + own;
  }

  // ---------------------------------------------------------------- the check

  /** The functions that run for a test: what it reaches, and what its class's autouse fixtures reach. */
  ghost function RunsFor(g: Graph, test: nat, autouse: seq<nat>): set<nat> {
    AllReached(g, test) + FixturesReach(g, autouse)
  }

  ghost function FixturesReach(g: Graph, autouse: seq<nat>): set<nat> {
    if autouse == [] then {}
    else FixturesReach(g, autouse[..|autouse| - 1]) + AllReached(g, autouse[|autouse| - 1])
  }

  /** They are the functions that a chain of calls leads to from the test or from a fixture. */
  lemma RunsIfReached(g: Graph, test: nat, autouse: seq<nat>, h: nat)
    ensures h in RunsFor(g, test, autouse)
            <==> h in g && (Reaches(g, test, h) || exists i | 0 <= i < |autouse| :: Reaches(g, autouse[i], h))
  {
    FixtureReaches(g, autouse, h);
  }

  lemma {:induction false} FixtureReaches(g: Graph, autouse: seq<nat>, h: nat)
    ensures h in FixturesReach(g, autouse) <==> h in g && exists i | 0 <= i < |autouse| :: Reaches(g, autouse[i], h)
  {
    if autouse != [] {
      var most := autouse[..|autouse| - 1];
      FixtureReaches(g, most, h);
      assert forall i | 0 <= i < |most| :: most[i] == autouse[i];
    }
  }

  lemma AccessesInUnion(g: Graph, a: set<nat>, b: set<nat>)
    ensures AccessesIn(g, a + b) == AccessesIn(g, a) + AccessesIn(g, b)
  {
  }

  /** Usage from every autouse fixture of a class; each is scanned on its own. */
  method ClassAutouseUsage(g: Graph, autouse: seq<nat>) returns (required: map<Marker, int>, dynamic: set<Marker>)
    requires Closed(g) && forall i | 0 <= i < |autouse| :: autouse[i] in g
    ensures SumsUp(required, dynamic, AccessesIn(g, FixturesReach(g, autouse)))
  {
    required, dynamic := map[], {};
    for i := 0 to |autouse|
      invariant SumsUp(required, dynamic, AccessesIn(g, FixturesReach(g, autouse[..i])))
    {
      var r, d := ScanAll(g, autouse[i]);
      assert autouse[..i + 1][..i] == autouse[..i];
      AtLeastOne(r, d, AccessesIn(g, AllReached(g, autouse[i])));
      MergeSumsUp(required, dynamic, AccessesIn(g, FixturesReach(g, autouse[..i])),
                  r, d, AccessesIn(g, AllReached(g, autouse[i])));
      AccessesInUnion(g, FixturesReach(g, autouse[..i]), AllReached(g, autouse[i]));
      required := MergeInto(required, r);
      dynamic := dynamic + d;
    }
    assert autouse[..|autouse|] == autouse;
  }

  /** A single cluster needs no marker. */
  predicate Exempt(m: Marker, needed: int) { m == MinClusters && needed < MIN_CLUSTERS_THRESHOLD }

  /** The declared number, if any, falls short of what constant indexes need. */
  predicate Short(declared: Markers, m: Marker, needed: int) {
    !Exempt(m, needed) && (m !in declared || declared[m] < needed)
  }

  /** A list is used without a constant index and without a marker. */
  predicate Bare(declared: Markers, required: map<Marker, int>, dynamic: set<Marker>, m: Marker) {
    m in dynamic && m !in required && m != MinClusters && m !in declared
  }

  ghost predicate Justified(v: Violation, declared: Markers, required: map<Marker, int>, dynamic: set<Marker>) {
    match v
    case NotDeclared(m, needed) =>
      m in required && needed == required[m] && Short(declared, m, needed) && m !in declared
    case TooLow(m, have, needed) =>
      m in required && needed == required[m] && Short(declared, m, needed) && m in declared && have == declared[m]
    case ListNotDeclared(m) => Bare(declared, required, dynamic, m)
  }

  /** Every violation listed is justified, and every justified one is listed. */
  ghost predicate Lists(violations: seq<Violation>, declared: Markers, required: map<Marker, int>, dynamic: set<Marker>) {
    && (forall v | v in violations :: Justified(v, declared, required, dynamic))
    && (forall m | m in required && Short(declared, m, required[m]) ::
          exists v | v in violations :: v.marker == m && !v.ListNotDeclared?)
    && (forall m | Bare(declared, required, dynamic, m) :: ListNotDeclared(m) in violations)
  }

  /** The violations of a test's markers, given its usage. */
  method Compare(declared: Markers, required: map<Marker, int>, dynamic: set<Marker>) returns (violations: seq<Violation>)
    ensures Lists(violations, declared, required, dynamic)
  {
    violations := [];
    var todo := required.Keys;
    while todo != {}
      invariant todo <= required.Keys
      invariant forall v | v in violations :: Justified(v, declared, required, dynamic)
      invariant forall m | m in required && m !in todo && Short(declared, m, required[m]) ::
                  exists v | v in violations :: v.marker == m && !v.ListNotDeclared?
      decreases todo
    {
      var m :| m in todo;
      todo := todo - {m};
      var needed := required[m];
      if !(m == MinClusters && needed < MIN_CLUSTERS_THRESHOLD) {
        ghost var before := violations;
        if m !in declared {
          violations := violations + [NotDeclared(m, needed)];
          assert violations[|violations| - 1] == NotDeclared(m, needed);
        } else if declared[m] < needed {
          violations := violations + [TooLow(m, declared[m], needed)];
          assert violations[|violations| - 1] == TooLow(m, declared[m], needed);
        }
        assert forall v | v in before :: v in violations;
      }
    }
    ghost var first := violations;
    var bare := dynamic - required.Keys;
    while bare != {}
      invariant bare <= dynamic - required.Keys
      invariant forall v | v in first :: v in violations
      invariant forall v | v in violations :: Justified(v, declared, required, dynamic)
      invariant forall m | Bare(declared, required, dynamic, m) && m !in bare :: ListNotDeclared(m) in violations
      decreases bare
    {
      var m :| m in bare;
      bare := bare - {m};
      if m != MinClusters && m !in declared {
        violations := violations + [ListNotDeclared(m)];
      }
    }
  }

  /** `needed` is the greatest need of the constant indexes on a marker's list. */
  ghost predicate IsNeed(accesses: set<Access>, m: Marker, needed: int) {
    && (exists a :: a in accesses && a.Indexed? && a.marker == m && Need(a.index) == needed)
    && (forall a | a in accesses && a.Indexed? && a.marker == m :: Need(a.index) <= needed)
  }

  /** The list of a marker is used, never at a constant index, and the marker is not declared. */
  ghost predicate BareUse(declared: Markers, accesses: set<Access>, m: Marker) {
    && Dynamic(m) in accesses && m != MinClusters && m !in declared
    && forall a | a in accesses && a.Indexed? :: a.marker != m
  }

  /** No constant index is flagged exactly when all are in range of what their markers count; what
      is flagged names the greatest need and the number declared, if any; and a list used without
      any constant index is reported exactly when its marker is missing. */
  ghost predicate Flags(violations: seq<Violation>, declared: Markers, accesses: set<Access>) {
    && ((forall v | v in violations :: v.ListNotDeclared?) <==> Safe(declared, accesses))
    && (forall v | v in violations && !v.ListNotDeclared? ::
          && IsNeed(accesses, v.marker, v.needed)
          && Get(declared, v.marker) == (if v.TooLow? then Some(v.have) else None)
          && (v.TooLow? ==> v.have < v.needed))
    && (forall m :: ListNotDeclared(m) in violations <==> BareUse(declared, accesses, m))
  }

  lemma ListedMean(violations: seq<Violation>, declared: Markers, required: map<Marker, int>, dynamic: set<Marker>,
                   accesses: set<Access>)
    requires SumsUp(required, dynamic, accesses) && Lists(violations, declared, required, dynamic)
    ensures Flags(violations, declared, accesses)
  {
    FlaggedIffUnsafe(declared, required, dynamic, accesses);
    BareMeansBareUse(declared, required, dynamic, accesses);
  }

  /** The check of one test function. */
  method CheckFunction(name: string, classes: seq<Markers>, own: Markers, g: Graph, test: nat, autouse: seq<nat>)
    returns (violations: seq<Violation>)
    requires Closed(g) && test in g && forall i | 0 <= i < |autouse| :: autouse[i] in g
    ensures !("test_" <= name) ==> violations == []
    ensures "test_" <= name ==>
              Flags(violations, Effective(classes, own), AccessesIn(g, RunsFor(g, test, autouse)))
  {
    if !("test_" <= name) {
      return [];
    }
    var declared := Declared(classes, own);
    var required, dynamic := TestUsage(g, test, autouse);
    violations := Compare(declared, required, dynamic);
    ListedMean(violations, declared, required, dynamic, AccessesIn(g, RunsFor(g, test, autouse)));
  }

  /** The usage of a test, with that of its class's autouse fixtures. */
  method TestUsage(g: Graph, test: nat, autouse: seq<nat>) returns (required: map<Marker, int>, dynamic: set<Marker>)
    requires Closed(g) && test in g && forall i | 0 <= i < |autouse| :: autouse[i] in g
    ensures SumsUp(required, dynamic, AccessesIn(g, RunsFor(g, test, autouse)))
  {
    required, dynamic := ScanAll(g, test);
    var autouseRequired, autouseDynamic := ClassAutouseUsage(g, autouse);
    AtLeastOne(autouseRequired, autouseDynamic, AccessesIn(g, FixturesReach(g, autouse)));
    MergeSumsUp(required, dynamic, AccessesIn(g, AllReached(g, test)),
                autouseRequired, autouseDynamic, AccessesIn(g, FixturesReach(g, autouse)));
    AccessesInUnion(g, AllReached(g, test), FixturesReach(g, autouse));
    required := MergeInto(required, autouseRequired);
    dynamic := dynamic + autouseDynamic;
  }

  lemma BareMeansBareUse(declared: Markers, required: map<Marker, int>, dynamic: set<Marker>, accesses: set<Access>)
    requires SumsUp(required, dynamic, accesses)
    ensures forall m :: Bare(declared, required, dynamic, m) <==> BareUse(declared, accesses, m)
    ensures forall m | m in required :: IsNeed(accesses, m, required[m])
  {
    forall m ensures Bare(declared, required, dynamic, m) <==> BareUse(declared, accesses, m) {
      if m in required {
        var a :| a in accesses && a.Indexed? && a.marker == m && Need(a.index) == required[m];
      }
    }
  }

  // ---------------------------------------------------------------- what the check guarantees

  /** How many of each the runtime configuration provides, in all clusters together. */
  datatype Topology = Topology(
    testServers: nat, syncGateways: nat, couchbaseServers: nat, edgeServers: nat, loadBalancers: nat, clusters: nat)

  function Count(t: Topology, m: Marker): nat {
    match m
    case MinTestServers => t.testServers
    case MinSyncGateways => t.syncGateways
    case MinCouchbaseServers => t.couchbaseServers
    case MinEdgeServers => t.edgeServers
    case MinLoadBalancers => t.loadBalancers
    case MinClusters => t.clusters
  }

  /** The configuration provides as many of each as the markers ask for. */
  predicate Admitted(declared: Markers, t: Topology) {
    forall m | m in declared :: Count(t, m) >= declared[m]
  }

  /** Every constant index is in range of the number that its marker counts. */
  ghost predicate AllInRange(accesses: set<Access>, t: Topology) {
    forall a | a in accesses && a.Indexed? :: InRange(a.index, Count(t, a.marker))
  }

  /** Wherever there is a cluster and the markers are met, the indexes are in range of the numbers
      that the markers count. A test may see fewer: these are not the lists of one cluster. */
  ghost predicate Safe(declared: Markers, accesses: set<Access>) {
    forall t: Topology | Admitted(declared, t) && t.clusters >= 1 :: AllInRange(accesses, t)
  }

  function Floor(declared: Markers, m: Marker, least: nat): nat {
    if m in declared && declared[m] >= least then declared[m] else least
  }

  /** The smallest topology with a cluster that satisfies the markers. */
  function Smallest(declared: Markers): Topology {
    Topology(Floor(declared, MinTestServers, 0), Floor(declared, MinSyncGateways, 0),
             Floor(declared, MinCouchbaseServers, 0), Floor(declared, MinEdgeServers, 0),
             Floor(declared, MinLoadBalancers, 0), Floor(declared, MinClusters, 1))
  }

  lemma SmallestCounts(declared: Markers, m: Marker)
    ensures Count(Smallest(declared), m) == Floor(declared, m, if m == MinClusters then 1 else 0)
  {
  }

  /** The check complains about a constant index exactly when some topology that has a cluster and
      meets the declared markers puts an index of the test out of range of what its marker counts.
      So a marker that is high enough is never flagged. */
  lemma FlaggedIffUnsafe(declared: Markers, required: map<Marker, int>, dynamic: set<Marker>, accesses: set<Access>)
    requires SumsUp(required, dynamic, accesses)
    ensures (forall m | m in required :: !Short(declared, m, required[m]))
            <==> Safe(declared, accesses)
  {
    if forall m | m in required :: !Short(declared, m, required[m]) {
      forall t: Topology | Admitted(declared, t) && t.clusters >= 1 ensures AllInRange(accesses, t) {
        SafeWhenAdmitted(declared, required, dynamic, accesses, t);
      }
    } else {
      var m :| m in required && Short(declared, m, required[m]);
      ShortIsUnsafe(declared, required, dynamic, accesses, m);
    }
  }

  lemma SafeWhenAdmitted(declared: Markers, required: map<Marker, int>, dynamic: set<Marker>, accesses: set<Access>, t: Topology)
    requires SumsUp(required, dynamic, accesses)
    requires forall m | m in required :: !Short(declared, m, required[m])
    requires Admitted(declared, t) && t.clusters >= 1
    ensures AllInRange(accesses, t)
  {
    forall a | a in accesses && a.Indexed? ensures InRange(a.index, Count(t, a.marker)) {
      NeedIsLeast(a.index, Count(t, a.marker));
      assert !Short(declared, a.marker, required[a.marker]);
    }
  }

  lemma ShortIsUnsafe(declared: Markers, required: map<Marker, int>, dynamic: set<Marker>, accesses: set<Access>, m: Marker)
    requires SumsUp(required, dynamic, accesses)
    requires m in required && Short(declared, m, required[m])
    ensures Admitted(declared, Smallest(declared)) && Smallest(declared).clusters >= 1
    ensures !AllInRange(accesses, Smallest(declared))
  {
    var t := Smallest(declared);
    forall n | n in declared ensures Count(t, n) >= declared[n] {
      SmallestCounts(declared, n);
    }
    var a :| a in accesses && a.Indexed? && a.marker == m && Need(a.index) == required[m];
    SmallestCounts(declared, m);
    NeedIsLeast(a.index, Count(t, m));
  }
}

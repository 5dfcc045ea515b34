/** Which topology a test uses: the accesses written in a function's body, and those of every
    helper it calls, directly or not. */
module UsageScan {
  import opened Wrappers

  datatype Marker =
    | MinTestServers | MinSyncGateways | MinCouchbaseServers | MinEdgeServers | MinLoadBalancers | MinClusters

  /** The Python expressions that matter here; Other stands for any node with children. */
  datatype Expr =
    | Name(id: string)
    | Attribute(value: Expr, attr: string)
    | Subscript(value: Expr, slice: Expr)
    | Call(func: Expr, args: seq<Expr>)
    | IntConstant(n: nat)
    | Negated(operand: Expr)
    | Other(parts: seq<Expr>)

  /** An object whose topology lists the check knows: the `CBLPyTest` object, or a
      `CouchbaseCluster`, with its index in the list of clusters where that is a constant. */
  datatype Receiver = TestObject | OneCluster(number: Option<int>)

  type TypeEnv = map<string, Receiver>

  /** The marker of a topology attribute, on a receiver whose class has it. */
  function MemberMarker(receiver: Option<Receiver>, attr: string): Option<Marker> {
    if receiver.None? then None
    else if receiver.value.TestObject? then
      if attr == "test_servers" then Some(MinTestServers)
      else if attr == "sync_gateways" then Some(MinSyncGateways)
      else if attr == "couchbase_servers" then Some(MinCouchbaseServers)
      else if attr == "edge_servers" then Some(MinEdgeServers)
      else if attr == "load_balancers" then Some(MinLoadBalancers)
      else if attr == "clusters" then Some(MinClusters)
      else None
    else
      if attr == "sync_gateways" then Some(MinSyncGateways)
      else if attr == "couchbase_servers" then Some(MinCouchbaseServers)
      else None
  }

  /** The object that `e` evaluates to; None if it is not one of the two kinds, or unknown. */
  function InferType(e: Expr, env: TypeEnv): Option<Receiver> {
    match e
    case Name(id) => if id in env then Some(env[id]) else None
    case Call(func, _) =>
      if func == Name("CBLPyTest") then Some(TestObject)
      else if func == Name("CouchbaseCluster") then Some(OneCluster(None))
      else None
    case Subscript(value, slice) =>
      if value.Attribute? && value.attr == "clusters" && InferType(value.value, env) == Some(TestObject)
      then Some(OneCluster(ConstantIntIndex(slice)))
      else None
    case _ => None
  }

  function ConstantIntIndex(index: Expr): Option<int> {
    match index
    case Negated(IntConstant(n)) => Some(0 - n)
    case IntConstant(n) => Some(n)
    case _ => None
  }

  // ---------------------------------------------------------------- accesses

  /** An access to a topology list of some object: at a constant index, or any other way. */
  datatype Access = Indexed(marker: Marker, index: int, receiver: Receiver) | Dynamic(marker: Marker)

  function Children(e: Expr): seq<Expr> {
    match e
    case Attribute(value, _) => [value]
    case Subscript(value, slice) => [value, slice]
    case Call(func, args) => [func] + args
    case Negated(operand) => [operand]
    case Other(parts) => parts
    case _ => []
  }

  function AttributeMarker(e: Expr, env: TypeEnv): Option<Marker> {
    if e.Attribute? then MemberMarker(InferType(e.value, env), e.attr) else None
  }

  /** The access that node `e` makes itself. `subscripted` says that `e` was accounted for by the
      subscript just above it. */
  function OwnAccess(e: Expr, env: TypeEnv, subscripted: bool): Option<Access> {
    if e.Subscript? && AttributeMarker(e.value, env).Some? then
      var marker := AttributeMarker(e.value, env).value;
      var index := ConstantIntIndex(e.slice);
      Some(if index.Some? then Indexed(marker, index.value, InferType(e.value.value, env).value) else Dynamic(marker))
    else if e.Attribute? && !subscripted && AttributeMarker(e, env).Some? then
      Some(Dynamic(AttributeMarker(e, env).value))
    else None
  }

  function AsSet(a: Option<Access>): set<Access> { if a.Some? then {a.value} else {} }

  /** Is child `i` of `e` an attribute that the subscript `e` accounts for? */
  predicate Accounted(e: Expr, env: TypeEnv, i: nat) {
    e.Subscript? && i == 0 && AttributeMarker(e.value, env).Some?
  }

  /** All accesses written in `e`. */
  function Accesses(e: Expr, env: TypeEnv, subscripted: bool): set<Access>
    decreases e, 1
  {
    AsSet(OwnAccess(e, env, subscripted)) + ChildAccesses(e, env, |Children(e)|)
  }

  function ChildAccesses(e: Expr, env: TypeEnv, n: nat): set<Access>
    requires n <= |Children(e)|
    decreases e, 0, n
  {
    if n == 0 then {}
    else
      var child := Children(e)[n - 1];
      assert child < e by { ChildIsSmaller(e, n - 1); }
      ChildAccesses(e, env, n - 1) + Accesses(child, env, Accounted(e, env, n - 1))
  }

  lemma ChildIsSmaller(e: Expr, i: nat)
    requires i < |Children(e)|
    ensures Children(e)[i] < e
  {
    match e
    case Call(func, args) => assert i > 0 ==> ([func] + args)[i] == args[i - 1];
    case _ =>
  }

  // ---------------------------------------------------------------- what an index needs

  /** The list length that a constant index calls for. */
  function Need(index: int): int { if index < 0 then -index else index + 1 }

  predicate InRange(index: int, length: int) { -length <= index < length }

  /** It is the least length that puts the index in range. */
  lemma NeedIsLeast(index: int, length: int)
    ensures InRange(index, length) <==> length >= Need(index)
    ensures Need(index) >= 1
  {
  }

  /** `required` and `dynamic` sum up a set of accesses: per marker the greatest need, attained by
      one of them, and the markers accessed without a constant index. */
  ghost predicate SumsUp(required: map<Marker, int>, dynamic: set<Marker>, accesses: set<Access>) {
    && (forall a | a in accesses && a.Indexed? :: a.marker in required && Need(a.index) <= required[a.marker])
    && (forall m | m in required :: exists a :: a in accesses && a.Indexed? && a.marker == m && Need(a.index) == required[m])
    && (forall m :: m in dynamic <==> Dynamic(m) in accesses)
  }

  function Max(a: int, b: int): int { if a >= b then a else b }

  function Merged(r: map<Marker, int>, s: map<Marker, int>): map<Marker, int> {
    map m | m in r.Keys + s.Keys ::
      if m !in s then r[m] else if m !in r then s[m] else Max(r[m], s[m])
  }

  lemma MergeSumsUp(r1: map<Marker, int>, d1: set<Marker>, a1: set<Access>,
                    r2: map<Marker, int>, d2: set<Marker>, a2: set<Access>)
    requires SumsUp(r1, d1, a1) && SumsUp(r2, d2, a2)
    ensures SumsUp(Merged(r1, r2), d1 + d2, a1 + a2)
  {
    var r, accesses := Merged(r1, r2), a1 + a2;
    forall m | m in r ensures exists a :: a in accesses && a.Indexed? && a.marker == m && Need(a.index) == r[m] {
      if m in r1 && r[m] == r1[m] {
        var a :| a in a1 && a.Indexed? && a.marker == m && Need(a.index) == r1[m];
        assert a in accesses;
      } else {
        var a :| a in a2 && a.Indexed? && a.marker == m && Need(a.index) == r2[m];
        assert a in accesses;
      }
    }
  }

  /** What one function needs, raised to what a function it calls needs. */
  method MergeInto(required: map<Marker, int>, more: map<Marker, int>) returns (r: map<Marker, int>)
    requires forall m | m in more :: more[m] >= 1
    ensures r == Merged(required, more)
  {
    r := required;
    var todo := more.Keys;
    while todo != {}
      invariant todo <= more.Keys
      invariant r.Keys == required.Keys + (more.Keys - todo)
      invariant forall m | m in r ::
                  r[m] == if m in todo || m !in more then required[m]
                          else if m !in required then more[m] else Max(required[m], more[m])
      decreases todo
    {
      var m :| m in todo;
      r := r[m := Max(if m in r then r[m] else 0, more[m])];
      todo := todo - {m};
    }
  }

  // ---------------------------------------------------------------- accesses as they are written

  /** An integer literal. */
  function Literal(n: int): Expr { if n < 0 then Negated(IntConstant(-n)) else IntConstant(n) }

  /** `cblpytest.list` */
  function TestList(list: string): Expr { Attribute(Name("cblpytest"), list) }

  /** `cblpytest.list[n]` */
  function TestItem(list: string, n: int): Expr { Subscript(TestList(list), Literal(n)) }

  /** `cblpytest.clusters[k].list[n]` */
  function ClusterItem(k: int, list: string, n: int): Expr {
    Subscript(Attribute(TestItem("clusters", k), list), Literal(n))
  }

  predicate KnowsTest(env: TypeEnv) { "cblpytest" in env && env["cblpytest"].TestObject? }

  /** The test object's lists, each with its marker. */
  const TEST_LISTS := {
    ("test_servers", MinTestServers), ("sync_gateways", MinSyncGateways), ("couchbase_servers", MinCouchbaseServers),
    ("edge_servers", MinEdgeServers), ("load_balancers", MinLoadBalancers), ("clusters", MinClusters)}

  /** A cluster's lists. */
  const CLUSTER_LISTS := {("sync_gateways", MinSyncGateways), ("couchbase_servers", MinCouchbaseServers)}

  /** An access to a list of the test object, by a literal index, another index, or as a whole. */
  lemma TestItemAccess(env: TypeEnv, list: string, marker: Marker, n: int, other: Expr)
    requires KnowsTest(env) && (list, marker) in TEST_LISTS
    ensures Accesses(TestItem(list, n), env, false) == {Indexed(marker, n, TestObject)}
    ensures !(other.IntConstant? || (other.Negated? && other.operand.IntConstant?)) ==>
              Accesses(Subscript(TestList(list), other), env, false) == {Dynamic(marker)} + Accesses(other, env, false)
    ensures Accesses(TestList(list), env, false) == {Dynamic(marker)}
  {
    LeafAccesses("cblpytest", env);
    LiteralAccesses(n, env);
    ItemAccesses(Name("cblpytest"), list, Literal(n), env, marker);
    ItemAccesses(Name("cblpytest"), list, other, env, marker);
    AttributeAccesses(Name("cblpytest"), list, env);
  }

  /** An access to a list of one of the clusters uses the list of clusters, too. */
  lemma ClusterItemAccess(env: TypeEnv, k: int, list: string, marker: Marker, n: int)
    requires KnowsTest(env) && (list, marker) in CLUSTER_LISTS
    ensures Accesses(ClusterItem(k, list, n), env, false)
            == {Indexed(marker, n, OneCluster(Some(k))), Indexed(MinClusters, k, TestObject)}
  {
    TestItemAccess(env, "clusters", MinClusters, k, Literal(k));
    assert InferType(TestItem("clusters", k), env) == Some(OneCluster(Some(k)));
    LiteralAccesses(n, env);
    ItemAccesses(TestItem("clusters", k), list, Literal(n), env, marker);
  }

  /** No other attribute, and no attribute of a name of unknown type, is a topology list. */
  lemma NoAccess(env: TypeEnv, name: string, attr: string, n: int)
    requires name in env ==> !exists marker :: (attr, marker) in if env[name].TestObject? then TEST_LISTS else CLUSTER_LISTS
    ensures Accesses(Attribute(Name(name), attr), env, false) == {}
    ensures Accesses(Subscript(Attribute(Name(name), attr), Literal(n)), env, false) == {}
  {
    LeafAccesses(name, env);
    LiteralAccesses(n, env);
    NoMarker(env, name, attr);
    AttributeAccesses(Name(name), attr, env);
    SubscriptAccesses(Attribute(Name(name), attr), Literal(n), env);
  }

  lemma NoMarker(env: TypeEnv, name: string, attr: string)
    requires name in env ==> !exists marker :: (attr, marker) in if env[name].TestObject? then TEST_LISTS else CLUSTER_LISTS
    ensures MemberMarker(InferType(Name(name), env), attr) == None
  {
    if name in env {
      var lists := if env[name].TestObject? then TEST_LISTS else CLUSTER_LISTS;
      assert forall marker | MemberMarker(InferType(Name(name), env), attr) == Some(marker) :: (attr, marker) in lists;
    }
  }

  /** What is written inside a call or any other node is accessed by it. */
  lemma AccessesInside(e: Expr, env: TypeEnv, a: Access)
    requires e.Call? || e.Other? || e.Negated?
    ensures a in Accesses(e, env, false) <==> exists i | 0 <= i < |Children(e)| :: a in Accesses(Children(e)[i], env, false)
  {
    if a in ChildAccesses(e, env, |Children(e)|) {
      var i := FindChild(e, env, |Children(e)|, a);
      assert a in Accesses(Children(e)[i], env, false);
    }
    forall i | 0 <= i < |Children(e)| && a in Accesses(Children(e)[i], env, false)
      ensures a in ChildAccesses(e, env, |Children(e)|)
    {
      ChildIncluded(e, env, |Children(e)|, i, a);
    }
  }

  predicate InChild(e: Expr, env: TypeEnv, i: nat, a: Access)
    requires i < |Children(e)|
  {
    a in Accesses(Children(e)[i], env, Accounted(e, env, i))
  }

  lemma {:induction false} FindChild(e: Expr, env: TypeEnv, n: nat, a: Access) returns (i: nat)
    requires n <= |Children(e)| && a in ChildAccesses(e, env, n)
    ensures i < n && InChild(e, env, i, a)
  {
    InLastChild(e, env, n, a);
    i := n - 1;
    if !InChild(e, env, n - 1, a) {
      i := FindChild(e, env, n - 1, a);
    }
  }

  lemma {:induction false} ChildIncluded(e: Expr, env: TypeEnv, n: nat, i: nat, a: Access)
    requires i < n <= |Children(e)| && InChild(e, env, i, a)
    ensures a in ChildAccesses(e, env, n)
  {
    InLastChild(e, env, n, a);
    if i < n - 1 {
      ChildIncluded(e, env, n - 1, i, a);
    }
  }

  lemma InLastChild(e: Expr, env: TypeEnv, n: nat, a: Access)
    requires 0 < n <= |Children(e)|
    ensures a in ChildAccesses(e, env, n) <==> a in ChildAccesses(e, env, n - 1) || InChild(e, env, n - 1, a)
  {
    LastChildAccesses(e, env, n);
  }

  lemma LeafAccesses(id: string, env: TypeEnv)
    ensures Accesses(Name(id), env, false) == {}
  {
  }

  lemma LiteralAccesses(n: int, env: TypeEnv)
    ensures Accesses(Literal(n), env, false) == {}
    ensures ConstantIntIndex(Literal(n)) == Some(n)
  {
    if n < 0 {
      LastChildAccesses(Literal(n), env, 1);
      assert Accesses(IntConstant(-n), env, false) == {};
      assert ChildAccesses(Literal(n), env, 0) == {};
    }
  }

  lemma AttributeAccesses(value: Expr, attr: string, env: TypeEnv)
    ensures Accesses(Attribute(value, attr), env, false)
            == AsSet(OwnAccess(Attribute(value, attr), env, false)) + Accesses(value, env, false)
    ensures Accesses(Attribute(value, attr), env, true) == Accesses(value, env, false)
  {
    LastChildAccesses(Attribute(value, attr), env, 1);
    assert ChildAccesses(Attribute(value, attr), env, 0) == {};
  }

  lemma SubscriptAccesses(value: Expr, slice: Expr, env: TypeEnv)
    ensures Accesses(Subscript(value, slice), env, false)
            == AsSet(OwnAccess(Subscript(value, slice), env, false))
               + Accesses(value, env, AttributeMarker(value, env).Some?) + Accesses(slice, env, false)
  {
    var e := Subscript(value, slice);
    LastChildAccesses(e, env, 2);
    LastChildAccesses(e, env, 1);
    assert ChildAccesses(e, env, 0) == {};
  }

  lemma ItemAccesses(receiver: Expr, list: string, index: Expr, env: TypeEnv, marker: Marker)
    requires MemberMarker(InferType(receiver, env), list) == Some(marker)
    ensures var n := ConstantIntIndex(index);
            Accesses(Subscript(Attribute(receiver, list), index), env, false)
            == {if n.Some? then Indexed(marker, n.value, InferType(receiver, env).value) else Dynamic(marker)}
               + Accesses(receiver, env, false) + Accesses(index, env, false)
  {
    SubscriptAccesses(Attribute(receiver, list), index, env);
    AttributeAccesses(receiver, list, env);
  }

  /** The number that a single indexed access calls for. */
  lemma OneItemNeeds(required: map<Marker, int>, dynamic: set<Marker>, marker: Marker, n: int, receiver: Receiver)
    requires SumsUp(required, dynamic, {Indexed(marker, n, receiver)})
    ensures required == map[marker := if n < 0 then -n else n + 1] && dynamic == {}
  {
    assert Indexed(marker, n, receiver) in {Indexed(marker, n, receiver)};
  }

  // ---------------------------------------------------------------- usage written in one function

  /** The accesses of a worklist, whose entries say whether they are already accounted for. */
  ghost function Pending(todo: seq<(Expr, bool)>, env: TypeEnv): set<Access> {
    if todo == [] then {} else Accesses(todo[0].0, env, todo[0].1) + Pending(todo[1..], env)
  }

  lemma {:induction false} PendingAppend(a: seq<(Expr, bool)>, b: seq<(Expr, bool)>, env: TypeEnv)
    ensures Pending(a + b, env) == Pending(a, env) + Pending(b, env)
  {
    if a == [] {
      assert a + b == b;
    } else {
      PendingAppend(a[1..], b, env);
      assert (a + b)[1..] == a[1..] + b;
    }
  }

  function ChildEntries(e: Expr, env: TypeEnv, n: nat): seq<(Expr, bool)>
    requires n <= |Children(e)|
  {
    seq(n, i requires 0 <= i < n => (Children(e)[i], Accounted(e, env, i)))
  }

  lemma LastChildEntry(e: Expr, env: TypeEnv, n: nat)
    requires 0 < n <= |Children(e)|
    ensures ChildEntries(e, env, n) == ChildEntries(e, env, n - 1) + [(Children(e)[n - 1], Accounted(e, env, n - 1))]
  {
  }

  lemma LastChildAccesses(e: Expr, env: TypeEnv, n: nat)
    requires 0 < n <= |Children(e)|
    ensures ChildAccesses(e, env, n)
            == ChildAccesses(e, env, n - 1) + Accesses(Children(e)[n - 1], env, Accounted(e, env, n - 1))
  {
  }

  lemma {:induction false} ChildrenPending(e: Expr, env: TypeEnv, n: nat)
    requires n <= |Children(e)|
    ensures Pending(ChildEntries(e, env, n), env) == ChildAccesses(e, env, n)
  {
    if n > 0 {
      ChildrenPending(e, env, n - 1);
      LastChildEntry(e, env, n);
      LastChildAccesses(e, env, n);
      PendingOne(Children(e)[n - 1], Accounted(e, env, n - 1), env);
      PendingAppend(ChildEntries(e, env, n - 1), [(Children(e)[n - 1], Accounted(e, env, n - 1))], env);
    }
  }

  lemma PendingOne(e: Expr, accounted: bool, env: TypeEnv)
    ensures Pending([(e, accounted)], env) == Accesses(e, env, accounted)
  {
    var none: seq<(Expr, bool)> := [];
    assert [(e, accounted)][1..] == none;
    assert Pending(none, env) == {};
  }

  /** The number of nodes still to be walked. */
  ghost function Size(e: Expr): nat
    decreases e, 1
  {
    1 + SizeOfChildren(e, |Children(e)|)
  }

  ghost function SizeOfChildren(e: Expr, n: nat): nat
    requires n <= |Children(e)|
    decreases e, 0, n
  {
    if n == 0 then 0
    else
      assert Children(e)[n - 1] < e by { ChildIsSmaller(e, n - 1); }
      SizeOfChildren(e, n - 1) + Size(Children(e)[n - 1])
  }

  ghost function TotalSize(todo: seq<(Expr, bool)>): nat {
    if todo == [] then 0 else Size(todo[0].0) + TotalSize(todo[1..])
  }

  lemma {:induction false} TotalSizeAppend(a: seq<(Expr, bool)>, b: seq<(Expr, bool)>)
    ensures TotalSize(a + b) == TotalSize(a) + TotalSize(b)
  {
    if a == [] {
      assert a + b == b;
    } else {
      TotalSizeAppend(a[1..], b);
      assert (a + b)[1..] == a[1..] + b;
    }
  }

  lemma {:induction false} ChildrenSize(e: Expr, env: TypeEnv, n: nat)
    requires n <= |Children(e)|
    ensures TotalSize(ChildEntries(e, env, n)) == SizeOfChildren(e, n)
  {
    if n > 0 {
      ChildrenSize(e, env, n - 1);
      var last := [(Children(e)[n - 1], Accounted(e, env, n - 1))];
      TotalSizeAppend(ChildEntries(e, env, n - 1), last);
      LastChildEntry(e, env, n);
      assert last[1..] == [];
    }
  }

  function Raised(required: map<Marker, int>, m: Marker, needed: int): map<Marker, int> {
    required[m := Max(if m in required then required[m] else 0, needed)]
  }

  /** An indexed access raises its marker's number. */
  lemma IndexedSumsUp(required: map<Marker, int>, dynamic: set<Marker>, seen: set<Access>, m: Marker, index: int,
                        receiver: Receiver)
    requires SumsUp(required, dynamic, seen)
    ensures SumsUp(Raised(required, m, Need(index)), dynamic, seen + {Indexed(m, index, receiver)})
  {
    var one := map[m := Need(index)];
    OneSumsUp(m, index, receiver);
    MergeSumsUp(required, dynamic, seen, one, {}, {Indexed(m, index, receiver)});
    AtLeastOne(required, dynamic, seen);
    RaisedIsMerged(required, m, Need(index));
    assert dynamic + {} == dynamic;
  }

  lemma RaisedIsMerged(required: map<Marker, int>, m: Marker, needed: int)
    requires needed >= 1 && forall n | n in required :: required[n] >= 1
    ensures Merged(required, map[m := needed]) == Raised(required, m, needed)
  {
  }

  lemma OneSumsUp(m: Marker, index: int, receiver: Receiver)
    ensures SumsUp(map[m := Need(index)], {}, {Indexed(m, index, receiver)})
  {
    assert Indexed(m, index, receiver) in {Indexed(m, index, receiver)};
  }

  lemma DynamicSumsUp(required: map<Marker, int>, dynamic: set<Marker>, seen: set<Access>, m: Marker)
    requires SumsUp(required, dynamic, seen)
    ensures SumsUp(required, dynamic + {m}, seen + {Dynamic(m)})
  {
    assert SumsUp(map[], {m}, {Dynamic(m)});
    MergeSumsUp(required, dynamic, seen, map[], {m}, {Dynamic(m)});
    assert Merged(required, map[]) == required;
  }

  /** A subscript of a topology list, by a constant index or not. */
  method NoteSubscript(marker: Marker, index: Option<int>, required: map<Marker, int>, dynamic: set<Marker>,
                       ghost seen: set<Access>, ghost receiver: Receiver)
    returns (r: map<Marker, int>, d: set<Marker>)
    requires SumsUp(required, dynamic, seen)
    ensures SumsUp(r, d, seen + {if index.Some? then Indexed(marker, index.value, receiver) else Dynamic(marker)})
  {
    r, d := required, dynamic;
    if index.Some? {
      var needed := if index.value < 0 then -index.value else index.value + 1;
      IndexedSumsUp(required, dynamic, seen, marker, index.value, receiver);
      r := r[marker := Max(if marker in r then r[marker] else 0, needed)];
    } else {
      DynamicSumsUp(required, dynamic, seen, marker);
      d := d + {marker};
    }
  }

  /** Takes one node of the walk into account. */
  method NoteNode(node: Expr, subscripted: bool, env: TypeEnv, required: map<Marker, int>, dynamic: set<Marker>,
                  ghost seen: set<Access>)
    returns (r: map<Marker, int>, d: set<Marker>)
    requires SumsUp(required, dynamic, seen)
    ensures SumsUp(r, d, seen + AsSet(OwnAccess(node, env, subscripted)))
  {
    r, d := required, dynamic;
    assert seen + {} == seen;
    if node.Subscript? && node.value.Attribute? {
      var marker := AttributeMarker(node.value, env);
      if marker.Some? {
        r, d := NoteSubscript(marker.value, ConstantIntIndex(node.slice), required, dynamic, seen,
                              InferType(node.value.value, env).value);
      }
    } else if node.Attribute? && !subscripted {
      var marker := AttributeMarker(node, env);
      if marker.Some? {
        DynamicSumsUp(required, dynamic, seen, marker.value);
        d := d + {marker.value};
      }
    }
  }

  /** Taking the first node off the worklist and adding its children at the end. */
  lemma WalkStep(todo: seq<(Expr, bool)>, env: TypeEnv)
    requires todo != []
    ensures var node := todo[0].0;
            var next := todo[1..] + ChildEntries(node, env, |Children(node)|);
            && Pending(todo, env) == AsSet(OwnAccess(node, env, todo[0].1)) + Pending(next, env)
            && TotalSize(next) < TotalSize(todo)
  {
    var node := todo[0].0;
    var children := ChildEntries(node, env, |Children(node)|);
    ChildrenPending(node, env, |Children(node)|);
    ChildrenSize(node, env, |Children(node)|);
    PendingAppend(todo[1..], children, env);
    TotalSizeAppend(todo[1..], children);
  }

  /** The walk over a function's own body, parents before children. */
  method LocalUsage(body: Expr, env: TypeEnv) returns (required: map<Marker, int>, dynamic: set<Marker>)
    ensures SumsUp(required, dynamic, Accesses(body, env, false))
  {
    required, dynamic := map[], {};
    var todo := [(body, false)];
    ghost var seen: set<Access> := {};
    assert todo[1..] == [];
    while todo != []
      invariant SumsUp(required, dynamic, seen)
      invariant seen + Pending(todo, env) == Accesses(body, env, false)
      decreases TotalSize(todo)
    {
      var node, subscripted := todo[0].0, todo[0].1;
      WalkStep(todo, env);
      required, dynamic := NoteNode(node, subscripted, env, required, dynamic, seen);
      seen := seen + AsSet(OwnAccess(node, env, subscripted));
      todo := todo[1..] + ChildEntries(node, env, |Children(node)|);
    }
    assert seen + {} == seen;
  }

  // ---------------------------------------------------------------- usage through calls

  /** A function with the types known in it and the functions that its calls resolve to. */
  datatype Function = Function(body: Expr, env: TypeEnv, callees: seq<nat>)

  type Graph = map<nat, Function>

  /** Every resolved call leads to a known function. The graph may well have cycles. */
  predicate Closed(g: Graph) {
    forall f | f in g :: forall i | 0 <= i < |g[f].callees| :: g[f].callees[i] in g
  }

  ghost predicate IsPath(g: Graph, p: seq<nat>) {
    && p != []
    && (forall i | 0 <= i < |p| :: p[i] in g)
    && (forall i | 0 <= i < |p| - 1 :: p[i + 1] in g[p[i]].callees)
  }

  ghost predicate Reaches(g: Graph, f: nat, h: nat) {
    exists p :: IsPath(g, p) && p[0] == f && p[|p| - 1] == h
  }

  /** The accesses written in any of the functions `fs`. */
  ghost function AccessesIn(g: Graph, fs: set<nat>): set<Access> {
    set f, a | f in fs && f in g && a in Accesses(g[f].body, g[f].env, false) :: a
  }

  ghost function AllReached(g: Graph, f: nat): set<nat> {
    set h | h in g && Reaches(g, f, h)
  }

  lemma ReachesSelf(g: Graph, f: nat)
    requires f in g
    ensures Reaches(g, f, f)
  {
    assert IsPath(g, [f]);
  }

  lemma ReachesThrough(g: Graph, f: nat, c: nat, h: nat)
    requires f in g && c in g[f].callees && Reaches(g, c, h)
    ensures Reaches(g, f, h)
  {
    var p :| IsPath(g, p) && p[0] == c && p[|p| - 1] == h;
    assert IsPath(g, [f] + p);
  }

  /** A set of functions that contains all their callees contains all they reach. */
  lemma {:induction false} ClosedSetKeepsPaths(g: Graph, s: set<nat>, p: seq<nat>)
    requires forall f | f in s && f in g :: forall c | c in g[f].callees :: c in s
    requires IsPath(g, p) && p[0] in s
    ensures p[|p| - 1] in s
  {
    if |p| > 1 {
      assert IsPath(g, p[1..]);
      ClosedSetKeepsPaths(g, s, p[1..]);
    }
  }

  /** What a scan from `f` has newly visited: `f` reaches it, and it is closed under calls up to
      what was visited before. */
  ghost predicate Explored(g: Graph, f: nat, before: set<nat>, after: set<nat>) {
    && before <= after && after <= g.Keys
    && (forall h | h in after - before :: Reaches(g, f, h))
    && (forall h | h in after - before :: forall c | c in g[h].callees :: c in after)
  }

  /** The usage in function `f` and in the helpers it calls, recursively. The set of visited
      functions is shared by the whole scan. */
  method ScanUsage(g: Graph, f: nat, visited: set<nat>)
    returns (required: map<Marker, int>, dynamic: set<Marker>, after: set<nat>)
    requires Closed(g) && f in g && visited <= g.Keys
    ensures Explored(g, f, visited, after) && f in after
    ensures SumsUp(required, dynamic, AccessesIn(g, after - visited))
    decreases g.Keys - visited
  {
    if f in visited {
      assert AccessesIn(g, visited - visited) == {};
      return map[], {}, visited;
    }
    after := visited + {f};
    required, dynamic := LocalUsage(g[f].body, g[f].env);
    ReachesSelf(g, f);
    assert after - visited == {f};
    assert AccessesIn(g, {f}) == Accesses(g[f].body, g[f].env, false);
    assert [] == g[f].callees[..0];
    for i := 0 to |g[f].callees|
      invariant Underway(g, f, visited, after, g[f].callees[..i])
      invariant SumsUp(required, dynamic, AccessesIn(g, after - visited))
    {
      var callee := g[f].callees[i];
      var subRequired, subDynamic, next := ScanUsage(g, callee, after);
      AtLeastOne(subRequired, subDynamic, AccessesIn(g, next - after));
      MergeSumsUp(required, dynamic, AccessesIn(g, after - visited),
                  subRequired, subDynamic, AccessesIn(g, next - after));
      CalleeExplored(g, f, visited, after, i, next);
      required := MergeInto(required, subRequired);
      dynamic, after := dynamic + subDynamic, next;
    }
    assert g[f].callees[..|g[f].callees|] == g[f].callees;
  }

  /** A scan from `f` that has followed the calls `followed`. */
  ghost predicate Underway(g: Graph, f: nat, before: set<nat>, after: set<nat>, followed: seq<nat>) {
    && before + {f} <= after && after <= g.Keys
    && (forall h | h in after - before :: Reaches(g, f, h))
    && (forall h | h in after - before && h != f :: forall c | c in g[h].callees :: c in after)
    && (forall c | c in followed :: c in after)
  }

  lemma CalleeExplored(g: Graph, f: nat, before: set<nat>, after: set<nat>, i: nat, next: set<nat>)
    requires f in g && i < |g[f].callees|
    requires Underway(g, f, before, after, g[f].callees[..i])
    requires Explored(g, g[f].callees[i], after, next) && g[f].callees[i] in next
    ensures Underway(g, f, before, next, g[f].callees[..i + 1])
    ensures AccessesIn(g, next - before) == AccessesIn(g, after - before) + AccessesIn(g, next - after)
  {
    forall h | h in next - after ensures Reaches(g, f, h) {
      ReachesThrough(g, f, g[f].callees[i], h);
    }
    assert g[f].callees[..i + 1] == g[f].callees[..i] + [g[f].callees[i]];
    assert next - before == (after - before) + (next - after);
  }

  lemma AtLeastOne(required: map<Marker, int>, dynamic: set<Marker>, accesses: set<Access>)
    requires SumsUp(required, dynamic, accesses)
    ensures forall m | m in required :: required[m] >= 1
  {
    forall m | m in required ensures required[m] >= 1 {
      var a :| a in accesses && a.Indexed? && a.marker == m && Need(a.index) == required[m];
    }
  }

  /** On any call graph, cyclic or not, the scan sums up exactly the functions that `f` reaches. */
  method ScanAll(g: Graph, f: nat) returns (required: map<Marker, int>, dynamic: set<Marker>)
    requires Closed(g) && f in g
    ensures SumsUp(required, dynamic, AccessesIn(g, AllReached(g, f)))
  {
    var after;
    required, dynamic, after := ScanUsage(g, f, {});
    assert after - {} == after;
    ExploredIsAllReached(g, f, after);
  }

  lemma ExploredIsAllReached(g: Graph, f: nat, after: set<nat>)
    requires Explored(g, f, {}, after) && f in after && f in g
    ensures after == AllReached(g, f)
  {
    forall h | h in g && Reaches(g, f, h) ensures h in after {
      var p :| IsPath(g, p) && p[0] == f && p[|p| - 1] == h;
      ClosedSetKeepsPaths(g, after, p);
    }
  }
}

/** Comparing the expected and the actual body of a document, and saying where they differ. */
module Comparison {
  import opened Wrappers
  import opened Json
  import opened KeyPathSyntax
  import opened KeyPathAccess

  datatype Kind = Update | Delete | Purge

  /** The answer to a verify request; a passing answer has nothing but its `result`. */
  datatype Response = Response(
    result: bool,
    description: Option<string>,
    actual: Option<Json>,
    expected: Option<Json>,
    document: Option<Json>)

  const PASSED := Response(true, None, None, None, None)

  function Failure(description: string): Response {
    Response(false, Some(description), None, None, None)
  }

  // Threw is the TypeError of `Object.keys(null)`.
  datatype Outcome = Same | Different | Threw

  predicate PlainOrUndefined(v: Option<Json>) { v.Some? ==> IsPlain(v.value) }

  datatype TypeName = TUndefined | TBoolean | TNumber | TString | TObject

  function TypeOf(v: Option<Json>): TypeName {
    match v
    case None => TUndefined
    case Some(Bool(_)) => TBoolean
    case Some(Num(_)) => TNumber
    case Some(Str(_)) => TString
    case Some(_) => TObject
  }

  function ElementAt(elems: seq<Json>, i: nat): Option<Json> {
    if i < |elems| then Some(elems[i]) else None
  }

  function FieldAt(fields: map<string, Json>, k: string): Option<Json> {
    if k in fields then Some(fields[k]) else None
  }

  function MismatchAt(at: Path, exp: Option<Json>, act: Option<Json>): Response {
    Response(false, Some("had unexpected properties at " + ComponentsToString(at)), act, exp, None)
  }

  // ---------------------------------------------------------------- where a comparison can end

  /** Two values that differ and are not compared any deeper: one is missing, the types differ, a
      scalar is expected, or just one of them is an array. */
  predicate Reportable(exp: Option<Json>, act: Option<Json>) {
    && exp != act
    && (exp.Some? && act.Some? ==>
          && !(exp.value.Arr? && act.value.Arr?)
          && !(exp.value.Obj? && (act.value.Obj? || act.value.Null?)))
  }

  /** Null where an object is expected. */
  predicate NullForObject(exp: Option<Json>, act: Option<Json>) {
    exp.Some? && exp.value.Obj? && act == Some(Null)
  }

  predicate EqualBefore(exp: seq<Json>, act: seq<Json>, n: int) {
    forall j | 0 <= j < n :: ElementAt(exp, j) == ElementAt(act, j)
  }

  predicate EqualOn(exp: map<string, Json>, act: map<string, Json>, keys: set<string>) {
    forall k | k in keys :: FieldAt(exp, k) == FieldAt(act, k)
  }

  /** A comparison of two arrays or two objects gets as far as slot `c`: array elements are compared
      up to the first difference, and the keys missing in `exp` only after all others agreed. */
  predicate Enters(exp: Json, act: Json, c: Component) {
    match c
    case Index(n) =>
      exp.Arr? && act.Arr? && (0 <= n < |exp.elems| || 0 <= n < |act.elems|) && EqualBefore(exp.elems, act.elems, n)
    case Key(k) =>
      && exp.Obj? && act.Obj?
      && (k in exp.fields || (k in act.fields && EqualOn(exp.fields, act.fields, exp.fields.Keys)))
  }

  /** A comparison gets as far as position `at`. */
  predicate Reached(exp: Option<Json>, act: Option<Json>, at: Path)
    decreases |at|
  {
    at != [] ==>
      && exp.Some? && act.Some? && Enters(exp.value, act.value, at[0])
      && Reached(Child(exp.value, at[0]), Child(act.value, at[0]), at[1..])
  }

  /** A comparison can report the values at `at`. */
  predicate CanReport(exp: Option<Json>, act: Option<Json>, at: Path) {
    Reached(exp, act, at) && Reportable(ReadFrom(exp, at), ReadFrom(act, at))
  }

  /** A comparison can throw at `at`. */
  predicate CanThrow(exp: Option<Json>, act: Option<Json>, at: Path) {
    Reached(exp, act, at) && NullForObject(ReadFrom(exp, at), ReadFrom(act, at))
  }

  /** Does a comparison report a mismatch under some order of keys? All orders are meant, also those
      that JavaScript, which takes integer-like keys first, does not produce. */
  predicate MayReport(exp: Option<Json>, act: Option<Json>)
    decreases if exp.Some? then exp.value else Null
  {
    Reportable(exp, act)
    || (exp.Some? && act.Some?
        && match (exp.value, act.value)
           case (Arr(e), Arr(a)) =>
             || (exists i | 0 <= i < |e| :: EqualBefore(e, a, i) && MayReport(Some(e[i]), ElementAt(a, i)))
             || (|e| < |a| && EqualBefore(e, a, |e|))
           case (Obj(e), Obj(a)) =>
             || (exists k | k in e :: MayReport(Some(e[k]), FieldAt(a, k)))
             || (EqualOn(e, a, e.Keys) && !(a.Keys <= e.Keys))
           case _ => false)
  }

  /** Does a comparison throw under some order of keys, of all there are? */
  predicate MayThrow(exp: Option<Json>, act: Option<Json>)
    decreases if exp.Some? then exp.value else Null
  {
    NullForObject(exp, act)
    || (exp.Some? && act.Some?
        && match (exp.value, act.value)
           case (Arr(e), Arr(a)) =>
             exists i | 0 <= i < |e| :: EqualBefore(e, a, i) && MayThrow(Some(e[i]), ElementAt(a, i))
           case (Obj(e), Obj(a)) => exists k | k in e :: MayThrow(Some(e[k]), FieldAt(a, k))
           case _ => false)
  }

  /** `at` leads, in both trees, to the reported values, which is where a comparison can end. */
  ghost predicate Witnesses(exp: Option<Json>, act: Option<Json>, at: Path, response: Response) {
    && CanReport(exp, act, at)
    && ReadFrom(exp, at) == response.expected
    && ReadFrom(act, at) == response.actual
  }

  /** What a comparison that set out from the path stack `was` ends with. */
  ghost predicate Explained(o: Outcome, exp: Option<Json>, act: Option<Json>, was: Path, now: Path,
                            responseWas: Option<Response>, response: Option<Response>)
  {
    && (o.Same? <==> exp == act)
    && (o.Same? ==> now == was && response == responseWas)
    && (o.Different? ==>
          && was <= now && response.Some?
          && Witnesses(exp, act, now[|was|..], response.value)
          && response.value == MismatchAt(now, response.value.expected, response.value.actual))
    && (o.Threw? ==> was <= now && CanThrow(exp, act, now[|was|..]))
  }

  /** `at` is where a comparison can end. */
  predicate Ends(exp: Option<Json>, act: Option<Json>, at: Path) {
    CanReport(exp, act, at) || CanThrow(exp, act, at)
  }

  /** A failure inside slot `c` is a failure of the whole, at a path one longer. */
  lemma FailureInside(o: Outcome, exp: Json, act: Json, c: Component, was: Path, now: Path,
                      responseWas: Option<Response>, response: Option<Response>)
    requires !o.Same? && Enters(exp, act, c)
    requires Explained(o, Child(exp, c), Child(act, c), was + [c], now, responseWas, response)
    ensures Explained(o, Some(exp), Some(act), was, now, responseWas, response)
    ensures |now| > |was| && now[|was|] == c
  {
    assert now[..|was| + 1] == was + [c];
    assert was <= now by {
      assert now[..|was|] == (was + [c])[..|was|] == was;
    }
    OneLonger(exp, act, c, now[|was|..], now[|was + [c]|..]);
  }

  /** Below slot `c` a comparison goes on just as it does for the values there. */
  lemma OneLonger(exp: Json, act: Json, c: Component, at: Path, rest: Path)
    requires Enters(exp, act, c) && at != [] && at[0] == c && at[1..] == rest
    ensures Reached(Some(exp), Some(act), at) <==> Reached(Child(exp, c), Child(act, c), rest)
    ensures ReadFrom(Some(exp), at) == ReadFrom(Child(exp, c), rest)
    ensures ReadFrom(Some(act), at) == ReadFrom(Child(act, c), rest)
  {
  }

  /** A comparison of two arrays or two objects ends inside a slot that it enters, where they differ. */
  lemma EndsInside(exp: Json, act: Json, at: Path)
    requires (exp.Arr? && act.Arr?) || (exp.Obj? && act.Obj?)
    requires Ends(Some(exp), Some(act), at)
    ensures at != [] && Enters(exp, act, at[0])
    ensures Ends(Child(exp, at[0]), Child(act, at[0]), at[1..])
    ensures Child(exp, at[0]) != Child(act, at[0])
  {
    OneLonger(exp, act, at[0], at, at[1..]);
  }

  lemma EqualArrays(exp: seq<Json>, act: seq<Json>, n: nat)
    requires n == if |exp| >= |act| then |exp| else |act|
    requires EqualBefore(exp, act, n)
    ensures exp == act
  {
    assert n > 0 ==> ElementAt(exp, n - 1) == ElementAt(act, n - 1);
    assert forall j | 0 <= j < n :: ElementAt(exp, j) == Some(exp[j]);
  }

  lemma EqualObjects(exp: map<string, Json>, act: map<string, Json>)
    requires EqualOn(exp, act, exp.Keys)
    requires |act.Keys| > |exp.Keys| ==> EqualOn(exp, act, act.Keys)
    ensures exp == act
  {
    forall k | k in exp ensures k in act && act[k] == exp[k] {
      assert FieldAt(exp, k) == FieldAt(act, k);
    }
    if |act.Keys| > |exp.Keys| {
      forall k | k in act ensures k in exp {
        assert FieldAt(exp, k) == FieldAt(act, k);
      }
    } else {
      SameKeys(exp.Keys, act.Keys);
    }
    assert exp.Keys == act.Keys;
  }

  lemma Rejoined(was: Path, c: Component, first: Path)
    requires first != [] && first[0] == c
    ensures was + [c] + first[1..] == was + first
  {
  }

  /** The first slot where two arrays differ is the only one in which a comparison can end. */
  lemma OnlyAtFirst(exp: Json, act: Json, i: nat, at: Path)
    requires exp.Arr? && act.Arr? && EqualBefore(exp.elems, act.elems, i)
    requires ElementAt(exp.elems, i) != ElementAt(act.elems, i)
    requires Ends(Some(exp), Some(act), at)
    ensures at[0] == Index(i) && Ends(Child(exp, Index(i)), Child(act, Index(i)), at[1..])
  {
    EndsInside(exp, act, at);
    var n := at[0].n;
    assert n < i ==> ElementAt(exp.elems, n) == ElementAt(act.elems, n);
  }

  /** A key that is visited before all others is the one in which a comparison ends, if it can. */
  lemma OnlyAtPreferred(exp: Json, act: Json, keys: set<string>, todo: set<string>, key: string, at: Path)
    requires exp.Obj? && act.Obj?
    requires keys == exp.fields.Keys || (keys == act.fields.Keys && EqualOn(exp.fields, act.fields, exp.fields.Keys))
    requires todo <= keys && EqualOn(exp.fields, act.fields, keys - todo) && key in todo
    requires FieldAt(exp.fields, key) != FieldAt(act.fields, key)
    requires at != [] && at[0].Key? && at[0].name in todo ==> key == at[0].name
    requires Ends(Some(exp), Some(act), at)
    ensures at[0] == Key(key) && Ends(Child(exp, Key(key)), Child(act, Key(key)), at[1..])
  {
    EndsInside(exp, act, at);
    var k := at[0].name;
    assert FieldAt(exp.fields, k) == Child(exp, at[0]) && FieldAt(act.fields, k) == Child(act, at[0]);
    assert FieldAt(exp.fields, k) != FieldAt(act.fields, k);
    assert !EqualOn(exp.fields, act.fields, keys);
    assert k in keys;
  }

  class DocComparison {
    var path: Path
    var response: Option<Response>

    constructor ()
      ensures path == [] && response == None
    {
      path := [];
      response := None;
    }

    method Fail(exp: Option<Json>, act: Option<Json>) returns (o: Outcome)
      requires Reportable(exp, act)
      modifies this
      ensures o == Different && path == old(path) && Explained(o, exp, act, old(path), path, old(response), response)
    {
      response := Some(MismatchAt(path, exp, act));
      assert path[|path|..] == [];
      o := Different;
    }

    /** The recursive comparison. The keys on the path `first` are visited before their siblings,
        all others in any order: so wherever a comparison can end, there is an order in which it does. */
    method Compare(exp: Option<Json>, act: Option<Json>, first: Path) returns (o: Outcome)
      requires PlainOrUndefined(exp) && PlainOrUndefined(act)
      modifies this
      ensures Explained(o, exp, act, old(path), path, old(response), response)
      ensures Ends(exp, act, first) ==> path == old(path) + first
      decreases exp.Some?, if exp.Some? then exp.value else Null, 1
    {
      assert path[|path|..] == [];
      if TypeOf(exp) != TypeOf(act) {
        o := Fail(exp, act);  // type mismatch
      } else if !TypeOf(exp).TObject? || exp == Some(Null) {
        if exp == act {
          o := Same;
        } else {
          o := Fail(exp, act);
        }
      } else if exp.value.Arr? {
        if !act.value.Arr? {
          o := Fail(exp, act);
        } else {
          o := CompareArrays(exp.value, act.value, first);
        }
      } else {
        if act.value.Arr? {
          o := Fail(exp, act);
        } else if act.value.Null? {
          o := Threw;
        } else {
          o := CompareObjects(exp.value, act.value, first);
        }
      }
    }

    method CompareArrays(exp: Json, act: Json, first: Path) returns (o: Outcome)
      requires exp.Arr? && act.Arr? && IsPlain(exp) && IsPlain(act)
      modifies this
      ensures Explained(o, Some(exp), Some(act), old(path), path, old(response), response)
      ensures Ends(Some(exp), Some(act), first) ==> path == old(path) + first
      decreases true, exp, 0
    {
      var expLen := if |exp.elems| >= |act.elems| then |exp.elems| else |act.elems|;
      for i := 0 to expLen
        invariant path == old(path) && response == old(response)
        invariant EqualBefore(exp.elems, act.elems, i)
      {
        path := path + [Index(i)];
        o := Compare(ElementAt(exp.elems, i), ElementAt(act.elems, i), Below(first, Index(i)));
        if !o.Same? {
          FailureInside(o, exp, act, Index(i), old(path), path, old(response), response);
          if Ends(Some(exp), Some(act), first) {
            OnlyAtFirst(exp, act, i, first);
            Rejoined(old(path), Index(i), first);
          }
          return;
        }
        path := path[..|path| - 1];
      }
      EqualArrays(exp.elems, act.elems, expLen);
      o := Same;
    }

    method CompareObjects(exp: Json, act: Json, first: Path) returns (o: Outcome)
      requires exp.Obj? && act.Obj? && IsPlain(exp) && IsPlain(act)
      modifies this
      ensures Explained(o, Some(exp), Some(act), old(path), path, old(response), response)
      ensures Ends(Some(exp), Some(act), first) ==> path == old(path) + first
      decreases true, exp, 0
    {
      var expKeys, actKeys := exp.fields.Keys, act.fields.Keys;
      o := CompareKeys(exp, act, expKeys, first);
      if !o.Same? {
        return;
      }
      if |actKeys| > |expKeys| {
        o := CompareKeys(exp, act, actKeys, first);
        if !o.Same? {
          return;
        }
      }
      EqualObjects(exp.fields, act.fields);
    }

    /** One of the two key loops of an object comparison. */
    method CompareKeys(exp: Json, act: Json, keys: set<string>, first: Path) returns (o: Outcome)
      requires exp.Obj? && act.Obj? && IsPlain(exp) && IsPlain(act)
      requires keys == exp.fields.Keys || (keys == act.fields.Keys && EqualOn(exp.fields, act.fields, exp.fields.Keys))
      modifies this
      ensures o.Same? <==> EqualOn(exp.fields, act.fields, keys)
      ensures o.Same? ==> path == old(path) && response == old(response)
      ensures !o.Same? ==>
                && Explained(o, Some(exp), Some(act), old(path), path, old(response), response)
                && |path| > |old(path)| && path[|old(path)|].Key? && path[|old(path)|].name in keys
      ensures !o.Same? && Ends(Some(exp), Some(act), first) ==> path == old(path) + first
      decreases true, exp, 0, 0
    {
      var todo := keys;
      while todo != {}
        invariant todo <= keys
        invariant path == old(path) && response == old(response)
        invariant EqualOn(exp.fields, act.fields, keys - todo)
        decreases todo
      {
        var key := NextKey(todo, first);
        path := path + [Key(key)];
        o := Compare(FieldAt(exp.fields, key), FieldAt(act.fields, key), Below(first, Key(key)));
        if !o.Same? {
          FailureInside(o, exp, act, Key(key), old(path), path, old(response), response);
          if Ends(Some(exp), Some(act), first) {
            OnlyAtPreferred(exp, act, keys, todo, key, first);
            Rejoined(old(path), Key(key), first);
          }
          return;
        }
        path := path[..|path| - 1];
        todo := todo - {key};
      }
      o := Same;
    }
  }

  /** What is left of `first` below slot `c`, if it leads there. */
  function Below(first: Path, c: Component): Path {
    if first != [] && first[0] == c then first[1..] else []
  }

  /** Any key, but the one on the path `first` if it has not been visited. */
  method NextKey(todo: set<string>, first: Path) returns (key: string)
    requires todo != {}
    ensures key in todo
    ensures first != [] && first[0].Key? && first[0].name in todo ==> key == first[0].name
  {
    if first != [] && first[0].Key? && first[0].name in todo {
      key := first[0].name;
    } else {
      key :| key in todo;
    }
  }

  /** The key-count shortcut: a subset that is not smaller is the whole set. */
  lemma SameKeys<T>(a: set<T>, b: set<T>)
    requires a <= b && |b| <= |a|
    ensures a == b
  {
    assert b == a + (b - a);
    assert |b| == |a| + |b - a|;
  }

  // ---------------------------------------------------------------- simple differences

  /** Values that are not both arrays or both objects are compared as a whole. */
  lemma DifferentKinds(exp: Json, act: Json, at: Path)
    requires exp != act && !(exp.Arr? && act.Arr?) && !(exp.Obj? && act.Obj?)
    ensures Ends(Some(exp), Some(act), at) <==> at == []
    ensures CanThrow(Some(exp), Some(act), []) <==> exp.Obj? && act == Null
    ensures CanReport(Some(exp), Some(act), []) <==> !(exp.Obj? && act == Null)
  {
  }

  function WithField(fields: map<string, Json>, k: string, v: Option<Json>): Json {
    Obj(if v.Some? then fields[k := v.value] else fields - {k})
  }

  /** Objects that differ in one key are told apart there: at the key if one has it and the other has
      not, and else where the values differ. */
  lemma OneKeyDiffers(fields: map<string, Json>, k: string, e: Option<Json>, a: Option<Json>, at: Path)
    requires e != a
    ensures var exp, act := WithField(fields, k, e), WithField(fields, k, a);
            Ends(Some(exp), Some(act), at) ==>
              && at != [] && at[0] == Key(k) && Ends(e, a, at[1..])
              && (e.None? || a.None? ==> at == [Key(k)] && CanReport(Some(exp), Some(act), at))
  {
    var exp, act := WithField(fields, k, e), WithField(fields, k, a);
    if Ends(Some(exp), Some(act), at) {
      EndsInside(exp, act, at);
      assert forall j | j != k :: Child(exp, Key(j)) == Child(act, Key(j));
      assert Child(exp, Key(k)) == e && Child(act, Key(k)) == a;
      assert at[0] == Key(k);
      if e.None? || a.None? {
        assert at[1..] == [];
        OneLonger(exp, act, at[0], at, []);
      }
    }
  }

  // ---------------------------------------------------------------- two documents

  /** Do the expected and the current document agree? None stands for an absent document. */
  predicate DocsAgree(expected: Option<Json>, actual: Option<Json>) {
    if expected.Some? && actual.Some? then DocToJson(expected.value) == DocToJson(actual.value)
    else expected.None? && actual.None?
  }

  /** Two documents agree when they look the same as JSON, or both are absent. */
  lemma AgreeIfSame(expected: Option<Json>, actual: Option<Json>)
    ensures DocsAgree(expected, actual)
            <==> if expected.Some? && actual.Some? then SameJson(expected.value, actual.value)
                 else expected == None && actual == None
  {
    if expected.Some? && actual.Some? {
      SameForms(expected.value, actual.value);
    }
  }

  /** A property that holds another blob, or none, makes a difference. */
  lemma BlobsTellApart(fields: map<string, Json>, k: string, a: map<string, Json>, b: Json)
    requires b.Blob? ==> b.metadata.Keys != a.Keys || exists m | m in a :: !SameJson(a[m], b.metadata[m])
    requires b.Obj? ==> b.fields.Keys != a.Keys || exists m | m in a :: !SameJson(a[m], b.fields[m])
    ensures !DocsAgree(Some(Obj(fields[k := Blob(a)])), Some(Obj(fields[k := b])))
  {
    var one, two := Obj(fields[k := Blob(a)]), Obj(fields[k := b]);
    assert !SameJson(one.fields[k], two.fields[k]);
    AgreeIfSame(Some(one), Some(two));
  }

  /** The answer when one document is absent. */
  function AbsenceFailure(expected: Option<Json>, kind: Option<Kind>): Response {
    if expected.Some? then Failure("was not found")
    else if kind == Some(Delete) then Failure("was not deleted")
    else if kind == Some(Purge) then Failure("was not purged")
    else Failure("should not exist")
  }

  /** How two documents that are both there differ. */
  ghost predicate Differ(o: Outcome, exp: Option<Json>, act: Option<Json>, response: Option<Response>) {
    if o.Threw? then exists at: Path :: CanThrow(exp, act, at)
    else
      && response.Some?
      && exists at: Path ::
           && Witnesses(exp, act, at, response.value)
           && response.value == MismatchAt(at, response.value.expected, response.value.actual)
  }

  /** The outcome of comparing two documents, with the response when they differ. */
  method CompareDocs(expected: Option<Json>, actual: Option<Json>, kind: Option<Kind>)
    returns (o: Outcome, response: Option<Response>)
    ensures o.Same? <==> DocsAgree(expected, actual)
    ensures expected.Some? && actual.Some? ==> (o.Same? <==> SameJson(expected.value, actual.value))
    ensures response.Some? <==> o.Different?
    ensures o.Different? && (expected.None? || actual.None?) ==>
              response == Some(AbsenceFailure(expected, kind))
    ensures expected.Some? && actual.Some? && !o.Same? ==>
              Differ(o, Some(DocToJson(expected.value)), Some(DocToJson(actual.value)), response)
    ensures o.Threw? ==> expected.Some? && actual.Some?
  {
    AgreeIfSame(expected, actual);
    response := None;
    if expected.Some? {
      if actual.Some? {
        var exp, act := DocToJson(expected.value), DocToJson(actual.value);
        DocToJsonIsPlain(expected.value);
        DocToJsonIsPlain(actual.value);
        var comparison := new DocComparison();
        o := comparison.Compare(Some(exp), Some(act), []);
        ghost var at := comparison.path;
        assert at[0..] == at;
        if o.Different? {
          response := comparison.response;
        }
      } else {
        o, response := Different, Some(Failure("was not found"));
      }
    } else {
      if actual.Some? {
        o := Different;
        if kind == Some(Delete) {
          response := Some(Failure("was not deleted"));
        } else if kind == Some(Purge) {
          response := Some(Failure("was not purged"));
        } else {
          response := Some(Failure("should not exist"));
        }
      } else {
        o := Same;
      }
    }
  }

  // ---------------------------------------------------------------- when a comparison throws

  /** Where a comparison can report, the condition on the trees holds. */
  lemma {:induction false} ReportedMay(exp: Option<Json>, act: Option<Json>, at: Path)
    requires CanReport(exp, act, at)
    ensures MayReport(exp, act)
    decreases |at|
  {
    if at != [] {
      ReportedMay(Child(exp.value, at[0]), Child(act.value, at[0]), at[1..]);
      match at[0]
      case Index(n) =>
        if n >= |exp.value.elems| {
          assert EqualBefore(exp.value.elems, act.value.elems, |exp.value.elems|);
        }
      case Key(_) =>
    }
  }

  /** Where a comparison can throw, the condition on the trees holds. */
  lemma {:induction false} ThrownMay(exp: Option<Json>, act: Option<Json>, at: Path)
    requires CanThrow(exp, act, at)
    ensures MayThrow(exp, act)
    decreases |at|
  {
    if at != [] {
      ThrownMay(Child(exp.value, at[0]), Child(act.value, at[0]), at[1..]);
    }
  }

  /** When the condition on the trees holds, there is a position at which a comparison can report. */
  lemma {:induction false} ReportPosition(exp: Option<Json>, act: Option<Json>) returns (at: Path)
    requires MayReport(exp, act)
    ensures CanReport(exp, act, at)
    decreases if exp.Some? then exp.value else Null
  {
    if Reportable(exp, act) {
      return [];
    }
    var c, rest := Index(0), [];
    match (exp.value, act.value) {
      case (Arr(e), Arr(a)) =>
        if i :| 0 <= i < |e| && EqualBefore(e, a, i) && MayReport(Some(e[i]), ElementAt(a, i)) {
          c := Index(i);
          rest := ReportPosition(Some(e[i]), ElementAt(a, i));
        } else {
          c := Index(|e|);
        }
      case (Obj(e), Obj(a)) =>
        if k :| k in e && MayReport(Some(e[k]), FieldAt(a, k)) {
          c := Key(k);
          rest := ReportPosition(Some(e[k]), FieldAt(a, k));
        } else {
          var k :| k in a.Keys && k !in e.Keys;
          c := Key(k);
        }
    }
    at := [c] + rest;
    OneLonger(exp.value, act.value, c, at, rest);
  }

  /** When the condition on the trees holds, there is a position at which a comparison can throw. */
  lemma {:induction false} ThrowPosition(exp: Option<Json>, act: Option<Json>) returns (at: Path)
    requires MayThrow(exp, act)
    ensures CanThrow(exp, act, at)
    decreases if exp.Some? then exp.value else Null
  {
    if NullForObject(exp, act) {
      return [];
    }
    var c, rest;
    match (exp.value, act.value) {
      case (Arr(e), Arr(a)) =>
        var i :| 0 <= i < |e| && EqualBefore(e, a, i) && MayThrow(Some(e[i]), ElementAt(a, i));
        c := Index(i);
        rest := ThrowPosition(Some(e[i]), ElementAt(a, i));
      case (Obj(e), Obj(a)) =>
        var k :| k in e && MayThrow(Some(e[k]), FieldAt(a, k));
        c := Key(k);
        rest := ThrowPosition(Some(e[k]), FieldAt(a, k));
    }
    at := [c] + rest;
    OneLonger(exp.value, act.value, c, at, rest);
  }

  /** Two trees differ exactly when a comparison may report or may throw. */
  lemma DifferenceShows(exp: Option<Json>, act: Option<Json>)
    requires PlainOrUndefined(exp) && PlainOrUndefined(act)
    ensures exp != act <==> MayReport(exp, act) || MayThrow(exp, act)
  {
    if exp != act {
      SomeEnd(exp, act);
    }
    if MayReport(exp, act) {
      var at := ReportPosition(exp, act);
    }
    if MayThrow(exp, act) {
      var at := ThrowPosition(exp, act);
    }
  }

  lemma {:induction false} SomeEnd(exp: Option<Json>, act: Option<Json>)
    requires PlainOrUndefined(exp) && PlainOrUndefined(act) && exp != act
    ensures MayReport(exp, act) || MayThrow(exp, act)
    decreases if exp.Some? then exp.value else Null
  {
    if exp.Some? && act.Some? && !Reportable(exp, act) && !NullForObject(exp, act) {
      match (exp.value, act.value) {
        case (Arr(e), Arr(a)) =>
          var i := FirstDifference(e, a, 0);
          if i < |e| {
            SomeEnd(Some(e[i]), ElementAt(a, i));
          }
        case (Obj(e), Obj(a)) =>
          if EqualOn(e, a, e.Keys) {
            assert forall k | k in e :: FieldAt(a, k) == Some(e[k]);
            assert a.Keys <= e.Keys ==> e == a;
          } else {
            var k :| k in e.Keys && FieldAt(e, k) != FieldAt(a, k);
            SomeEnd(Some(e[k]), FieldAt(a, k));
          }
      }
    }
  }

  lemma {:induction false} FirstDifference(e: seq<Json>, a: seq<Json>, from: nat) returns (i: nat)
    requires e != a && EqualBefore(e, a, from)
    ensures (i < |e| || i < |a|) && EqualBefore(e, a, i) && ElementAt(e, i) != ElementAt(a, i)
    decreases |e| - from
  {
    i := from;
    if from < |e| && ElementAt(e, from) == ElementAt(a, from) {
      i := FirstDifference(e, a, from + 1);
    } else if from >= |e| && from >= |a| {
      EqualBeforeIsEqual(e, a, from);
    }
  }

  lemma EqualBeforeIsEqual(e: seq<Json>, a: seq<Json>, n: nat)
    requires n >= |e| && n >= |a| && EqualBefore(e, a, n)
    ensures e == a
  {
    EqualArrays(e, a, if |e| >= |a| then |e| else |a|);
  }

  /** What an outcome says about the trees. So a comparison of trees that differ is sure to throw
      when none of their positions may be reported, and sure not to when none may throw. */
  lemma OutcomeDecided(o: Outcome, exp: Option<Json>, act: Option<Json>, was: Path, now: Path,
                       responseWas: Option<Response>, response: Option<Response>)
    requires PlainOrUndefined(exp) && PlainOrUndefined(act)
    requires Explained(o, exp, act, was, now, responseWas, response)
    ensures o.Threw? ==> MayThrow(exp, act)
    ensures o.Different? ==> MayReport(exp, act)
    ensures exp != act && !MayReport(exp, act) ==> o.Threw?
    ensures exp != act && !MayThrow(exp, act) ==> o.Different?
  {
    if o.Threw? {
      ThrownMay(exp, act, now[|was|..]);
    } else if o.Different? {
      ReportedMay(exp, act, now[|was|..]);
    }
  }

  /** When the keys of a position where a comparison can end are visited first, it ends there. So
      trees for which `MayThrow` holds do throw under some order of keys, and likewise for reports. */
  lemma OrderDecides(o: Outcome, exp: Option<Json>, act: Option<Json>, first: Path, was: Path, now: Path,
                     responseWas: Option<Response>, response: Option<Response>)
    requires Explained(o, exp, act, was, now, responseWas, response)
    requires Ends(exp, act, first) ==> now == was + first
    ensures CanThrow(exp, act, first) ==> o.Threw?
    ensures CanReport(exp, act, first) ==> o.Different?
  {
    if Ends(exp, act, first) {
      assert now[|was|..] == first;
    }
  }

  lemma DifferMay(o: Outcome, exp: Option<Json>, act: Option<Json>, response: Option<Response>)
    requires Differ(o, exp, act, response)
    ensures if o.Threw? then MayThrow(exp, act) else MayReport(exp, act)
  {
    if o.Threw? {
      var at: Path :| CanThrow(exp, act, at);
      ThrownMay(exp, act, at);
    } else {
      var at: Path :| Witnesses(exp, act, at, response.value)
                      && response.value == MismatchAt(at, response.value.expected, response.value.actual);
      ReportedMay(exp, act, at);
    }
  }

  /** An object is expected under a key, and null is there: the comparison is sure to throw. */
  lemma NullForObjectThrows(k: string)
    ensures var exp, act := Some(Obj(map[k := EMPTY_DOCUMENT])), Some(Obj(map[k := Null]));
            PlainOrUndefined(exp) && PlainOrUndefined(act) && exp != act && !MayReport(exp, act) && MayThrow(exp, act)
  {
    var e, a := map[k := EMPTY_DOCUMENT], map[k := Null];
    assert FieldAt(a, k) == Some(Null) && !MayReport(Some(e[k]), FieldAt(a, k));
    assert NullForObject(Some(e[k]), FieldAt(a, k));
    assert Obj(e).fields[k] != Obj(a).fields[k];
  }

  /** The path text of a mismatch, with "$" in front, is itself a key path that reads the reported
      values, provided the path has a text form. */
  lemma ReportedPathReads(exp: Json, act: Json, at: Path, response: Response)
    requires Witnesses(Some(exp), Some(act), at, response) && Printable(at)
    ensures var parsed := Parse("$" + ComponentsToString(at));
            && parsed.Some?
            && Read(exp, parsed.value) == response.expected
            && Read(act, parsed.value) == response.actual
  {
    PrintThenParse(at);
  }
}

/** The client's structural comparison of JSON values, which lets the right side have more. */
module JsonEquivalence {
  import opened Json

  /** Python's `==` on values that are neither both dictionaries nor both lists: True equals 1. */
  predicate ScalarEqual(l: Json, r: Json) {
    Scalar(l) == Scalar(r)
  }

  function Scalar(v: Json): Json {
    if v.Bool? then Num(if v.b then 1.0 else 0.0) else v
  }

  /** `json_equivalent`: every key on the left must be on the right, at any depth. */
  predicate Equivalent(l: Json, r: Json) {
    match l
    case Obj(fields) =>
      && r.Obj?
      && forall k | k in fields :: k in r.fields && Equivalent(fields[k], r.fields[k])
    case Arr(elems) =>
      && r.Arr? && |elems| == |r.elems|
      && forall i | 0 <= i < |elems| :: Equivalent(elems[i], r.elems[i])
    case _ => ScalarEqual(l, r)
  }

  /** One more key on the left must be on the right too, with an equivalent value; one more on the
      right makes no difference. */
  lemma OneMoreKey(l: map<string, Json>, r: map<string, Json>, k: string, v: Json)
    ensures k !in l ==> (Equivalent(Obj(l[k := v]), Obj(r)) <==> Equivalent(Obj(l), Obj(r)) && k in r && Equivalent(v, r[k]))
    ensures k !in r && Equivalent(Obj(l), Obj(r)) ==> Equivalent(Obj(l), Obj(r[k := v]))
    ensures Equivalent(Obj(map[]), Obj(r))
  {
    var left, right := Obj(l[k := v]), Obj(r[k := v]);
    assert forall j | j in l && j != k :: left.fields[j] == l[j];
    assert forall j | j in r && j != k :: right.fields[j] == r[j];
    assert left.fields[k] == v;
  }

  /** Lists are compared element by element, and have equal lengths. */
  lemma OneMoreElement(l: seq<Json>, r: seq<Json>, x: Json, y: Json)
    ensures Equivalent(Arr(l + [x]), Arr(r + [y])) <==> Equivalent(Arr(l), Arr(r)) && Equivalent(x, y)
    ensures Equivalent(Arr([]), Arr(r)) <==> r == []
    ensures !Equivalent(Arr(l + [x]), Arr([]))
  {
    var left, right := l + [x], r + [y];
    assert left[|l|] == x && right[|r|] == y;
    assert forall i | 0 <= i < |l| :: left[i] == l[i];
    assert forall i | 0 <= i < |r| :: right[i] == r[i];
  }

  /** The value with each boolean replaced by the number it equals in Python. */
  function Numeric(v: Json): Json {
    match v
    case Obj(fields) => Obj(map k | k in fields :: Numeric(fields[k]))
    case Arr(elems) => Arr(seq(|elems|, i requires 0 <= i < |elems| => Numeric(elems[i])))
    case _ => Scalar(v)
  }

  lemma {:induction false} Reflexive(v: Json)
    ensures Equivalent(v, v)
  {
    match v
    case Obj(fields) => forall k | k in fields { Reflexive(fields[k]); }
    case Arr(elems) => forall i | 0 <= i < |elems| { Reflexive(elems[i]); }
    case _ =>
  }

  lemma {:induction false} Transitive(a: Json, b: Json, c: Json)
    requires Equivalent(a, b) && Equivalent(b, c)
    ensures Equivalent(a, c)
  {
    match a
    case Obj(fields) =>
      forall k | k in fields ensures k in c.fields && Equivalent(fields[k], c.fields[k]) {
        Transitive(fields[k], b.fields[k], c.fields[k]);
      }
    case Arr(elems) =>
      forall i | 0 <= i < |elems| ensures Equivalent(elems[i], c.elems[i]) {
        Transitive(elems[i], b.elems[i], c.elems[i]);
      }
    case _ =>
  }

  /** Equivalence both ways is equality, as Python compares: a boolean equals its number. */
  lemma {:induction false} BothWaysIsEqual(a: Json, b: Json)
    ensures Equivalent(a, b) && Equivalent(b, a) <==> Numeric(a) == Numeric(b)
  {
    if a.Obj? && b.Obj? {
      forall k | k in a.fields && k in b.fields
        ensures Equivalent(a.fields[k], b.fields[k]) && Equivalent(b.fields[k], a.fields[k])
                <==> Numeric(a).fields[k] == Numeric(b).fields[k]
      {
        BothWaysIsEqual(a.fields[k], b.fields[k]);
      }
      if Numeric(a) == Numeric(b) {
        assert Numeric(a).fields.Keys == a.fields.Keys && Numeric(b).fields.Keys == b.fields.Keys;
      }
      if Equivalent(a, b) && Equivalent(b, a) {
        assert Numeric(a).fields == Numeric(b).fields;
      }
    } else if a.Arr? && b.Arr? {
      forall i | 0 <= i < |a.elems| && i < |b.elems|
        ensures Equivalent(a.elems[i], b.elems[i]) && Equivalent(b.elems[i], a.elems[i])
                <==> Numeric(a).elems[i] == Numeric(b).elems[i]
      {
        BothWaysIsEqual(a.elems[i], b.elems[i]);
      }
      if Numeric(a) == Numeric(b) {
        assert |Numeric(a).elems| == |a.elems| && |Numeric(b).elems| == |b.elems|;
      }
      if Equivalent(a, b) && Equivalent(b, a) {
        assert Numeric(a).elems == Numeric(b).elems;
      }
    }
  }

  /** Without booleans on either side, that is plain equality. */
  predicate BooleanFree(v: Json) {
    match v
    case Obj(fields) => forall k | k in fields :: BooleanFree(fields[k])
    case Arr(elems) => forall i | 0 <= i < |elems| :: BooleanFree(elems[i])
    case _ => !v.Bool?
  }

  lemma {:induction false} NumericIsIdentity(v: Json)
    ensures BooleanFree(v) ==> Numeric(v) == v
  {
    match v
    case Obj(fields) => forall k | k in fields { NumericIsIdentity(fields[k]); }
    case Arr(elems) => forall i | 0 <= i < |elems| { NumericIsIdentity(elems[i]); }
    case _ =>
  }

  lemma BothWaysIsPlainEquality(a: Json, b: Json)
    requires BooleanFree(a) && BooleanFree(b)
    ensures Equivalent(a, b) && Equivalent(b, a) <==> a == b
  {
    BothWaysIsEqual(a, b);
    NumericIsIdentity(a);
    NumericIsIdentity(b);
  }

  /** A value that is neither a dictionary nor a list has only equals, of which a number may be a boolean. */
  lemma ScalarsEquivalent(l: Json, r: Json)
    requires !l.Obj? && !l.Arr?
    ensures Equivalent(l, r) <==> || l == r
                                  || (l == Bool(true) && r == Num(1.0)) || (l == Num(1.0) && r == Bool(true))
                                  || (l == Bool(false) && r == Num(0.0)) || (l == Num(0.0) && r == Bool(false))
  {
  }

  lemma TrueIsOne()
    ensures Equivalent(Bool(true), Num(1.0)) && Equivalent(Num(1.0), Bool(true))
  {
  }
}

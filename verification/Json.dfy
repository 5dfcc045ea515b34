/** The document values of the JavaScript test server: JSON trees that may also hold blobs. */
module Json {

  // A blob is known only through the metadata that `JSON.stringify` writes in its place.
  datatype Json =
    | Null
    | Bool(b: bool)
    | Num(n: real)
    | Str(s: string)
    | Arr(elems: seq<Json>)
    | Obj(fields: map<string, Json>)
    | Blob(metadata: map<string, Json>)

  const EMPTY_DOCUMENT := Obj(map[])

  /** A tree as `JSON.parse` returns it: no blobs anywhere. */
  predicate IsPlain(v: Json) {
    match v
    case Arr(elems) => forall i | 0 <= i < |elems| :: IsPlain(elems[i])
    case Obj(fields) => forall k | k in fields :: IsPlain(fields[k])
    case Blob(_) => false
    case _ => true
  }

  /** What a comparison sees of a document: metadata in the place of blobs. */
  function DocToJson(v: Json): Json {
    match v
    case Arr(elems) => Arr(seq(|elems|, i requires 0 <= i < |elems| => DocToJson(elems[i])))
    case Obj(fields) => Obj(map k | k in fields :: DocToJson(fields[k]))
    case Blob(metadata) => Obj(map k | k in metadata :: DocToJson(metadata[k]))
    case _ => v
  }

  lemma {:induction false} DocToJsonIsPlain(v: Json)
    ensures IsPlain(DocToJson(v))
    ensures IsPlain(v) <==> DocToJson(v) == v
  {
    match v
    case Arr(elems) =>
      forall i | 0 <= i < |elems|
        ensures IsPlain(DocToJson(elems[i])) && (IsPlain(elems[i]) <==> DocToJson(elems[i]) == elems[i])
      {
        DocToJsonIsPlain(elems[i]);
      }
      if DocToJson(v) == v {
        assert forall i | 0 <= i < |elems| :: DocToJson(v).elems[i] == DocToJson(elems[i]);
      }
    case Obj(fields) =>
      forall k | k in fields
        ensures IsPlain(DocToJson(fields[k])) && (IsPlain(fields[k]) <==> DocToJson(fields[k]) == fields[k])
      {
        DocToJsonIsPlain(fields[k]);
      }
      if DocToJson(v) == v {
        assert forall k | k in fields :: DocToJson(v).fields[k] == DocToJson(fields[k]);
      }
    case Blob(metadata) =>
      forall k | k in metadata ensures IsPlain(DocToJson(metadata[k])) {
        DocToJsonIsPlain(metadata[k]);
      }
    case _ =>
  }

  /** A blob has the form of the object of its metadata. */
  lemma BlobForm(metadata: map<string, Json>)
    ensures DocToJson(Blob(metadata)) == DocToJson(Obj(metadata))
    ensures IsPlain(Obj(metadata)) ==> DocToJson(Blob(metadata)) == Obj(metadata)
  {
    DocToJsonIsPlain(Obj(metadata));
  }

  /** Two documents look the same once written as JSON: scalars are equal, arrays agree element by
      element and objects key by key, and a blob counts as the object of its metadata. */
  predicate SameJson(a: Json, b: Json) {
    match a
    case Arr(elems) =>
      b.Arr? && |elems| == |b.elems| && forall i | 0 <= i < |elems| :: SameJson(elems[i], b.elems[i])
    case Obj(fields) =>
      if b.Obj? then fields.Keys == b.fields.Keys && forall k | k in fields :: SameJson(fields[k], b.fields[k])
      else b.Blob? && fields.Keys == b.metadata.Keys && forall k | k in fields :: SameJson(fields[k], b.metadata[k])
    case Blob(metadata) =>
      if b.Obj? then metadata.Keys == b.fields.Keys && forall k | k in metadata :: SameJson(metadata[k], b.fields[k])
      else b.Blob? && metadata.Keys == b.metadata.Keys && forall k | k in metadata :: SameJson(metadata[k], b.metadata[k])
    case _ => a == b
  }

  /** The JSON forms of two documents are equal exactly when the documents look the same. */
  lemma {:induction false} SameForms(a: Json, b: Json)
    ensures DocToJson(a) == DocToJson(b) <==> SameJson(a, b)
  {
    if a.Arr? && b.Arr? {
      forall i | 0 <= i < |a.elems| && i < |b.elems|
        ensures DocToJson(a.elems[i]) == DocToJson(b.elems[i]) <==> SameJson(a.elems[i], b.elems[i])
      {
        SameForms(a.elems[i], b.elems[i]);
      }
      SameElements(a.elems, b.elems);
    } else if (a.Obj? || a.Blob?) && (b.Obj? || b.Blob?) {
      var f, g := if a.Obj? then a.fields else a.metadata, if b.Obj? then b.fields else b.metadata;
      forall k | k in f && k in g ensures DocToJson(f[k]) == DocToJson(g[k]) <==> SameJson(f[k], g[k]) {
        assert f[k] < a;
        SameForms(f[k], g[k]);
      }
      SameFields(f, g);
    }
  }

  lemma SameElements(a: seq<Json>, b: seq<Json>)
    requires forall i | 0 <= i < |a| && i < |b| :: DocToJson(a[i]) == DocToJson(b[i]) <==> SameJson(a[i], b[i])
    ensures DocToJson(Arr(a)) == DocToJson(Arr(b)) <==> SameJson(Arr(a), Arr(b))
  {
    var one, two := DocToJson(Arr(a)), DocToJson(Arr(b));
    assert |one.elems| == |a| && |two.elems| == |b|;
    assert forall i | 0 <= i < |a| :: one.elems[i] == DocToJson(a[i]);
    assert forall i | 0 <= i < |b| :: two.elems[i] == DocToJson(b[i]);
    if SameJson(Arr(a), Arr(b)) {
      assert one.elems == two.elems;
    }
  }

  lemma SameFields(a: map<string, Json>, b: map<string, Json>)
    requires forall k | k in a && k in b :: DocToJson(a[k]) == DocToJson(b[k]) <==> SameJson(a[k], b[k])
    ensures DocToJson(Obj(a)) == DocToJson(Obj(b)) <==> SameJson(Obj(a), Obj(b))
  {
    var one, two := DocToJson(Obj(a)), DocToJson(Obj(b));
    assert one.fields.Keys == a.Keys && two.fields.Keys == b.Keys;
    if SameJson(Obj(a), Obj(b)) {
      assert one.fields == two.fields;
    }
  }
}

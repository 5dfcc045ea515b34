/** The "merge-dict" conflict resolvers of the C and the JavaScript test servers. */
module Resolvers {
  import opened Wrappers
  import opened Json

  type Dict = map<string, Json>

  /** The dictionaries give the same value to every key they share. */
  predicate Agree(a: Dict, b: Dict) {
    forall k | k in a && k in b :: a[k] == b[k]
  }

  function ConflictText(key: string): string {
    "Conflicting values found at key named '" + key + "'"
  }

  /** Each key has a text of its own, which ends with it in quotes. */
  lemma TextNamesKey(a: string, b: string)
    ensures ConflictText(a) == ConflictText(b) <==> a == b
  {
    KeyInside("Conflicting values found at key named '", a, "'");
    KeyInside("Conflicting values found at key named '", b, "'");
  }

  lemma KeyInside(before: string, key: string, after: string)
    ensures (before + key + after)[|before|..|before + key + after| - |after|] == key
  {
  }

  const NOT_DICTS := "Both values are not dictionary"

  // ---------------------------------------------------------------- the C server

  /** A Fleece value as a dictionary; a blob is stored as the dictionary of its metadata. */
  function FleeceDict(doc: Dict, property: string): Option<Dict> {
    if property !in doc then None
    else
      match doc[property]
      case Obj(fields) => Some(fields)
      case Blob(metadata) => Some(metadata)
      case _ => None
  }

  /** The C server takes a blob for a dictionary, the JavaScript server does not. */
  lemma BlobAsDict(doc: Dict, property: string, d: Dict)
    ensures FleeceDict(doc, property) == Some(d)
            <==> property in doc && (doc[property] == Obj(d) || doc[property] == Blob(d))
    ensures IsDict(doc[property := Obj(d)], property) && !IsDict(doc[property := Blob(d)], property)
    ensures !IsDict(doc - {property}, property)
  {
  }

  /** The remote document, with the property set to the union of both dictionaries, or to a text
      naming a key on which they disagree. Dictionaries are iterated in no particular order. */
  method ResolveC(property: string, local: Option<Dict>, remote: Option<Dict>) returns (merged: Option<Dict>)
    ensures local.None? || remote.None? ==> merged == None
    ensures local.Some? && remote.Some? ==>
              var a, b := FleeceDict(local.value, property), FleeceDict(remote.value, property);
              && merged.Some? && property in merged.value
              && merged.value == remote.value[property := merged.value[property]]
              && (a.None? || b.None? ==> merged.value[property] == Str("Both values are not dictionary"))
              && (a.Some? && b.Some? && Agree(a.value, b.value) ==> merged.value[property] == Obj(a.value + b.value))
              && (a.Some? && b.Some? && !Agree(a.value, b.value) ==>
                    exists k | k in a.value && k in b.value ::
                      a.value[k] != b.value[k] && merged.value[property] == Str(ConflictText(k)))
  {
    if local.None? || remote.None? {
      return None;
    }
    var localDict, remoteDict := FleeceDict(local.value, property), FleeceDict(remote.value, property);
    if localDict.None? || remoteDict.None? {
      return Some(remote.value[property := Str(NOT_DICTS)]);
    }
    var a, b := localDict.value, remoteDict.value;
    var mergedDict: Dict := map[];

    // Merge local:
    var keys := a.Keys;
    while keys != {}
      invariant keys <= a.Keys
      invariant mergedDict.Keys == a.Keys - keys && forall k | k in mergedDict :: mergedDict[k] == a[k]
      decreases keys
    {
      var key :| key in keys;
      mergedDict := mergedDict[key := a[key]];
      keys := keys - {key};
    }
    assert mergedDict == a;

    // Merge remote:
    keys := b.Keys;
    while keys != {}
      invariant keys <= b.Keys
      invariant mergedDict.Keys == a.Keys + (b.Keys - keys)
      invariant forall k | k in mergedDict ::
                  mergedDict[k] == if k in b && k !in keys then b[k] else a[k]
      invariant forall k | k in a && k in b && k !in keys :: a[k] == b[k]
      decreases keys
    {
      var key :| key in keys;
      if key in mergedDict && b[key] != mergedDict[key] {
        return Some(remote.value[property := Str(ConflictText(key))]);
      }
      mergedDict := mergedDict[key := b[key]];
      keys := keys - {key};
    }
    assert mergedDict == a + b;
    merged := Some(remote.value[property := Obj(mergedDict)]);
  }

  /** The union does not depend on which side is the local one. */
  lemma UnionIsSymmetric(a: Dict, b: Dict)
    ensures Agree(a, b) <==> Agree(b, a)
    ensures Agree(a, b) <==> a + b == b + a
  {
    var one, two := a + b, b + a;
    if one == two {
      assert forall k | k in a && k in b :: one[k] == b[k] && two[k] == a[k];
    }
  }

  // ---------------------------------------------------------------- the JavaScript server

  predicate IsDict(doc: Dict, property: string) { property in doc && doc[property].Obj? }

  function ErrorDict(text: string): Json { Obj(map["error" := Str(text)]) }

  /** The local document, with the property set to the union of both dictionaries, or to an error
      naming a key that both have. */
  method ResolveJS(property: string, local: Option<Dict>, remote: Option<Dict>) returns (merged: Option<Dict>)
    ensures local.None? || remote.None? ==> merged == if local.Some? then local else remote
    ensures local.Some? && remote.Some? ==>
              && merged.Some? && property in merged.value
              && merged.value == local.value[property := merged.value[property]]
              && (if IsDict(local.value, property) && IsDict(remote.value, property) then
                    var a, b := local.value[property].fields, remote.value[property].fields;
                    if a.Keys !! b.Keys then merged.value[property] == Obj(a + b)
                    else exists k | k in a && k in b :: merged.value[property] == ErrorDict(ConflictText(k))
                  else merged.value[property] == ErrorDict("Both values are not dictionary"))
  {
    if local.None? {
      return remote;
    }
    if remote.None? {
      return local;
    }
    if !(IsDict(local.value, property) && IsDict(remote.value, property)) {
      return Some(local.value[property := ErrorDict(NOT_DICTS)]);
    }
    var a, b := local.value[property].fields, remote.value[property].fields;
    var mergedDict := a;
    var keys := b.Keys;
    while keys != {}
      invariant keys <= b.Keys
      invariant a.Keys !! b.Keys - keys
      invariant mergedDict.Keys == a.Keys + (b.Keys - keys)
      invariant forall k | k in mergedDict :: mergedDict[k] == if k in a then a[k] else b[k]
      decreases keys
    {
      var key :| key in keys;
      if key in mergedDict {
        return Some(local.value[property := ErrorDict(ConflictText(key))]);
      }
      mergedDict := mergedDict[key := b[key]];
      keys := keys - {key};
    }
    assert mergedDict == a + b;
    merged := Some(local.value[property := Obj(mergedDict)]);
  }

  /** Both servers, on dictionaries without a common key, set the property to the same union. The C
      server merges whenever the JavaScript one does; it also merges, as the specification of the
      resolvers asks, when they share keys with equal values. */
  method ResolversCompared(property: string, local: Dict, remote: Dict) returns (c: Option<Dict>, js: Option<Dict>)
    requires IsDict(local, property) && IsDict(remote, property)
    ensures c.Some? && js.Some? && property in c.value && property in js.value
    ensures var a, b := local[property].fields, remote[property].fields;
            && (c.value[property].Obj? <==> Agree(a, b))
            && (a.Keys !! b.Keys ==> js.value[property] == c.value[property] == Obj(a + b))
            && (!(a.Keys !! b.Keys) ==>
                  exists k | k in a && k in b :: js.value[property] == ErrorDict(ConflictText(k)))
  {
    c := ResolveC(property, Some(local), Some(remote));
    js := ResolveJS(property, Some(local), Some(remote));
  }

  /** Dictionaries that agree on a common key, but which the JavaScript server refuses to merge. */
  method SharedKeyRefused() returns (js: Option<Dict>)
    ensures Agree(map["k" := Null], map["k" := Null])
    ensures js == Some(map["p" := Obj(map["error" := Str("Conflicting values found at key named '" + "k" + "'")])])
  {
    var doc: Dict := map["p" := Obj(map["k" := Null])];
    js := ResolveJS("p", Some(doc), Some(doc));
    assert doc["p"].fields.Keys == {"k"};
    assert "k" in doc["p"].fields.Keys;
    assert doc["p" := ErrorDict(ConflictText("k"))] == map["p" := ErrorDict(ConflictText("k"))];
  }
}

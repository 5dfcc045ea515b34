/** Recording documents, and verifying the database against the recording and a list of updates. */
module Snapshots {
  import opened Wrappers
  import opened Json
  import opened CollectionNames
  import opened KeyPathSyntax
  import opened KeyPathAccess
  import opened Comparison
  import opened Updates
  import opened Databases

  predicate Holds<T>(m: map<string, map<string, T>>, key: DocKey) {
    key.0 in m && key.1 in m[key.0]
  }

  /** A mapping from a collection, as spelled, and a document ID, held as a map of maps. */
  class DocumentMap<T> {
    var byCollection: map<string, map<string, T>>
    ghost var contents: map<DocKey, T>

    ghost predicate Valid()
      reads this
    {
      && (forall key :: key in contents <==> Holds(byCollection, key))
      && (forall key | key in contents :: contents[key] == byCollection[key.0][key.1])
    }

    constructor ()
      ensures Valid() && contents == map[]
    {
      byCollection := map[];
      contents := map[];
    }

    method Set(key: DocKey, value: T)
      requires Valid()
      modifies this
      ensures Valid() && contents == old(contents)[key := value]
    {
      var collection, id := key.0, key.1;
      if collection !in byCollection {
        byCollection := byCollection[collection := map[]];
      }
      byCollection := byCollection[collection := byCollection[collection][id := value]];
      contents := contents[key := value];
    }

    method Get(key: DocKey) returns (value: Option<T>)
      requires Valid()
      ensures value == if key in contents then Some(contents[key]) else None
    {
      var collection, id := key.0, key.1;
      assert key in contents <==> Holds(byCollection, key);
      value := if collection in byCollection && id in byCollection[collection]
        then Some(byCollection[collection][id])
        else None;
    }

    /** The keys that iteration yields. */
    method Keys() returns (keys: set<DocKey>)
      requires Valid()
      ensures keys == contents.Keys
    {
      keys := set c, id | c in byCollection && id in byCollection[c] :: (c, id);
      assert forall key :: key in keys <==> Holds(byCollection, key);
    }
  }

  // ---------------------------------------------------------------- what a verification decides

  /** Several changes to one document collapse to the last one listed. */
  function LastChanges(changes: seq<UpdateItem>): map<DocKey, UpdateItem> {
    if changes == [] then map[]
    else
      var u := changes[|changes| - 1];
      LastChanges(changes[..|changes| - 1])[Spelled(u) := u]
  }

  lemma LastChangesStep(changes: seq<UpdateItem>, i: nat)
    requires i < |changes|
    ensures LastChanges(changes[..i + 1]) == LastChanges(changes[..i])[Spelled(changes[i]) := changes[i]]
  {
    assert changes[..i + 1][..i] == changes[..i];
  }

  /** The first `n` changes are for these documents. */
  predicate AllKnown(changes: seq<UpdateItem>, n: nat, known: set<DocKey>)
    requires n <= |changes|
  {
    forall i | 0 <= i < n :: Spelled(changes[i]) in known
  }

  lemma AllKnownStep(changes: seq<UpdateItem>, i: nat, known: set<DocKey>)
    requires i < |changes| && AllKnown(changes, i, known) && Spelled(changes[i]) in known
    ensures AllKnown(changes, i + 1, known)
  {
  }

  function ChangeFor(changes: seq<UpdateItem>, key: DocKey): Option<UpdateItem> {
    var last := LastChanges(changes);
    if key in last then Some(last[key]) else None
  }

  type Recording = map<DocKey, Option<Json>>

  /** Is there a change for a document that was not recorded under that spelling? */
  predicate NamesUnrecorded(changes: seq<UpdateItem>, recorded: Recording) {
    exists u | u in changes :: Spelled(u) !in recorded
  }

  /** The document that should be there now, or the error that working it out throws. */
  function Expected(recorded: Option<Json>, change: Option<UpdateItem>, load: BlobLoader): Result<Option<Json>, Error> {
    if change.None? then Ok(recorded) else Effect(recorded, change.value, load)
  }

  /** One recorded document checks out against the current one. */
  predicate ChecksOut(recorded: Option<Json>, change: Option<UpdateItem>, current: Option<Json>, load: BlobLoader) {
    var expected := Expected(recorded, change, load);
    expected.Ok? && DocsAgree(expected.value, current)
  }

  /** The whole verification passes. */
  predicate Passes(recorded: Recording, changes: seq<UpdateItem>, now: Collections, load: BlobLoader) {
    && !NamesUnrecorded(changes, recorded)
    && forall key | key in recorded :: KeyPasses(key, recorded, changes, now, load)
  }

  predicate KeyPasses(key: DocKey, recorded: Recording, changes: seq<UpdateItem>, now: Collections, load: BlobLoader)
    requires key in recorded
  {
    ChecksOut(recorded[key], ChangeFor(changes, key), Lookup(now, Normal(key)), load)
  }

  /** `v` is a true account of why the document recorded under `key` does not check out. */
  ghost predicate Blames(v: Verdict, key: DocKey, recorded: Recording, changes: seq<UpdateItem>,
                         now: Collections, load: BlobLoader)
    requires key in recorded
  {
    Explains(v, key, recorded[key], ChangeFor(changes, key), Lookup(now, Normal(key)), load)
  }

  function Described(key: DocKey, r: Response): Response
    requires r.description.Some?
  {
    r.(description := Some("Document " + key.1 + " in collection " + key.0 + " " + r.description.value))
  }

  function Attached(change: Option<UpdateItem>, current: Option<Json>, r: Response): Response {
    if change.Some? && change.value.kind.Update? then r.(document := current) else r
  }

  datatype Verdict = Answer(response: Response) | Throws(error: Error)

  /** `inner` says how the expected and the current document differ. */
  ghost predicate Tells(inner: Response, expected: Option<Json>, kind: Option<Kind>, current: Option<Json>) {
    && inner.description.Some? && !inner.result
    && if expected.None? || current.None? then inner == AbsenceFailure(expected, kind)
       else Differ(Different, Some(DocToJson(expected.value)), Some(DocToJson(current.value)), Some(inner))
  }

  /** `r` reports that a document is not as expected, and how. */
  ghost predicate Mismatches(r: Response, key: DocKey, expected: Option<Json>, change: Option<UpdateItem>,
                             current: Option<Json>)
  {
    && !DocsAgree(expected, current)
    && exists inner: Response ::
         && Tells(inner, expected, if change.Some? then Some(change.value.kind) else None, current)
         && r == Attached(change, current, Described(key, inner))
  }

  /** Comparing the two documents may throw. */
  predicate Crashes(expected: Option<Json>, current: Option<Json>) {
    && expected.Some? && current.Some?
    && MayThrow(Some(DocToJson(expected.value)), Some(DocToJson(current.value)))
  }

  /** `v` is a true account of why one recorded document does not check out. */
  ghost predicate Explains(v: Verdict, key: DocKey, recorded: Option<Json>, change: Option<UpdateItem>,
                           current: Option<Json>, load: BlobLoader)
  {
    match Expected(recorded, change, load)
    case Err(e) => v == Throws(e)
    case Ok(expected) =>
      match v
      case Answer(r) => !r.result && Mismatches(r, key, expected, change, current)
      case Throws(e) => e == ComparisonCrash && Crashes(expected, current)
  }

  /** `v` is a verdict on the whole recording; a failure is about the document `culprit`. */
  ghost predicate IsVerdict(v: Verdict, culprit: DocKey, recorded: Recording, changes: seq<UpdateItem>,
                            now: Collections, load: BlobLoader)
  {
    && (v == Answer(PASSED) <==> Passes(recorded, changes, now, load))
    && (NamesUnrecorded(changes, recorded) ==> v == Throws(UnknownDocument))
    && (v != Answer(PASSED) && !NamesUnrecorded(changes, recorded) ==>
          culprit in recorded && Blames(v, culprit, recorded, changes, now, load))
  }

  class Snapshot {
    const db: Database
    const documents: DocumentMap<Option<Json>>

    ghost predicate Valid()
      reads this, db, documents
    {
      && documents.Valid()
      && forall key | key in documents.contents :: NormalizeCollectionID(key.0) in db.collections
    }

    constructor (db: Database)
      ensures this.db == db && fresh(documents) && Valid() && documents.contents == map[]
    {
      this.db := db;
      documents := new DocumentMap();
    }

    /** Keeps what is there now under the key, if anything, as the state to verify against later. */
    method Record(key: DocKey) returns (error: Option<Error>)
      requires Valid()
      modifies documents
      ensures Valid()
      ensures error == if Normal(key).0 in db.collections then None else Some(UnknownCollection)
      ensures documents.contents == if error.Some? then old(documents.contents)
                                      else old(documents.contents)[key := Lookup(db.collections, Normal(key))]
    {
      var (collection, id) := key;
      if NormalizeCollectionID(collection) !in db.collections {
        return Some(UnknownCollection);
      }
      var doc := db.GetDocument(NormalizeCollectionID(collection), id);
      documents.Set(key, doc);
      error := None;
    }

    /** The expected document for a recorded one; the recorded body is itself edited by the change. */
    method Expect(key: DocKey, recorded: Option<Json>, change: UpdateItem, load: BlobLoader, cache: KeyPathCache)
      returns (expected: Result<Option<Json>, Error>)
      requires documents.Valid() && cache.Valid()
      requires key in documents.contents && documents.contents[key] == recorded
      modifies documents, cache
      ensures documents.Valid() && cache.Valid()
      ensures expected == Expected(recorded, Some(change), load)
      ensures documents.contents.Keys == old(documents.contents.Keys)
      ensures expected.Ok? ==>
                documents.contents == old(documents.contents)[key := Kept(recorded, Some(change), load)]
    {
      if !change.kind.Update? {
        assert documents.contents[key := recorded] == documents.contents;
        return Ok(None);
      }
      var doc := new Document(if recorded.Some? then recorded.value else EMPTY_DOCUMENT);
      var error := ApplyUpdate(cache, doc, change, load);
      if recorded.Some? {
        documents.Set(key, Some(doc.body));
      }
      assert recorded.None? ==> documents.contents[key := recorded] == documents.contents;
      expected := if error.Some? then Err(error.value) else Ok(Some(doc.body));
    }

    /** Compares the expected document with the current one; None if they agree. */
    method Judge(key: DocKey, expected: Option<Json>, change: Option<UpdateItem>, current: Option<Json>)
      returns (failed: Option<Verdict>)
      ensures failed.None? <==> DocsAgree(expected, current)
      ensures failed.Some? ==>
                match failed.value
                case Answer(r) => !r.result && Mismatches(r, key, expected, change, current)
                case Throws(e) => e == ComparisonCrash && Crashes(expected, current)
    {
      var kind := if change.Some? then Some(change.value.kind) else None;
      var outcome, response := CompareDocs(expected, current, kind);
      match outcome {
        case Same => failed := None;
        case Threw =>
          DifferMay(Threw, Some(DocToJson(expected.value)), Some(DocToJson(current.value)), None);
          failed := Some(Throws(ComparisonCrash));
        case Different =>
          var r := Attached(change, current, Described(key, response.value));
          assert Tells(response.value, expected, if change.Some? then Some(change.value.kind) else None, current);
          failed := Some(Answer(r));
      }
    }

    /** Checks one recorded document; None if it checks out. */
    method Check(key: DocKey, recorded: Option<Json>, change: Option<UpdateItem>, load: BlobLoader, cache: KeyPathCache)
      returns (failed: Option<Verdict>)
      requires Valid() && cache.Valid()
      requires key in documents.contents && documents.contents[key] == recorded
      modifies documents, cache
      ensures Valid() && cache.Valid()
      ensures failed.None? <==> ChecksOut(recorded, change, Lookup(db.collections, Normal(key)), load)
      ensures failed.Some? ==> Explains(failed.value, key, recorded, change, Lookup(db.collections, Normal(key)), load)
      ensures documents.contents.Keys == old(documents.contents.Keys)
      ensures failed.None? ==>
                documents.contents == old(documents.contents)[key := Kept(recorded, change, load)]
    {
      assert documents.contents[key := recorded] == documents.contents;
      var current := db.GetDocument(NormalizeCollectionID(key.0), key.1);
      if recorded.None? && change.None? {
        // The document should not exist.
        if current.Some? {
          var inner := Failure("should not exist");
          assert Tells(inner, None, None, current);
          return Some(Answer(Described(key, inner)));
        }
        return None;
      }
      var expected := recorded;
      if change.Some? {
        var r := Expect(key, recorded, change.value, load, cache);
        if r.Err? {
          return Some(Throws(r.error));
        }
        expected := r.value;
      }
      failed := Judge(key, expected, change, current);
    }

    /** Indexes the changes for quick lookup, rejecting one for a document not recorded. */
    method IndexChanges(changes: seq<UpdateItem>) returns (updates: Option<DocumentMap<UpdateItem>>)
      requires documents.Valid()
      ensures updates.None? <==> NamesUnrecorded(changes, documents.contents)
      ensures updates.Some? ==> fresh(updates.value) && updates.value.Valid() && updates.value.contents == LastChanges(changes)
    {
      ghost var known := documents.contents.Keys;
      var index := new DocumentMap<UpdateItem>();
      for i := 0 to |changes|
        invariant fresh(index) && index.Valid() && index.contents == LastChanges(changes[..i])
        invariant documents.Valid() && documents.contents.Keys == known
        invariant AllKnown(changes, i, known)
      {
        var recorded := documents.Get(Spelled(changes[i]));
        if recorded.None? {
          return None;
        }
        AllKnownStep(changes, i, known);
        LastChangesStep(changes, i);
        index.Set(Spelled(changes[i]), changes[i]);
      }
      assert changes[..|changes|] == changes;
      updates := Some(index);
    }

    /** Is the database as the recorded documents and the changes say? The documents are checked in
        no particular order; `culprit` is the one a failure is about. */
    method Verify(changes: seq<UpdateItem>, load: BlobLoader, cache: KeyPathCache)
      returns (v: Verdict, ghost culprit: DocKey)
      requires Valid() && cache.Valid()
      modifies documents, cache
      ensures Valid() && cache.Valid()
      ensures IsVerdict(v, culprit, old(documents.contents), changes, db.collections, load)
      ensures NamesUnrecorded(changes, old(documents.contents)) ==> documents.contents == old(documents.contents)
      ensures v == Answer(PASSED) ==> documents.contents == AfterPassing(old(documents.contents), changes, load)
    {
      culprit := ("", "");
      var updates := IndexChanges(changes);
      if updates.None? {
        return Throws(UnknownDocument), culprit;
      }
      v, culprit := CheckAll(updates.value, changes, load, cache);
    }

    /** Checks the document recorded under `key`, with its change from the index. */
    method CheckKey(key: DocKey, updates: DocumentMap<UpdateItem>, ghost changes: seq<UpdateItem>,
                    ghost recorded: Recording, load: BlobLoader, cache: KeyPathCache)
      returns (failed: Option<Verdict>)
      requires Valid() && cache.Valid() && updates.Valid() && updates.contents == LastChanges(changes)
      requires key in recorded && key in documents.contents && documents.contents[key] == recorded[key]
      modifies documents, cache
      ensures Valid() && cache.Valid()
      ensures failed.None? <==> KeyPasses(key, recorded, changes, db.collections, load)
      ensures failed.Some? ==> Blames(failed.value, key, recorded, changes, db.collections, load)
      ensures documents.contents.Keys == old(documents.contents.Keys)
      ensures failed.None? ==>
                documents.contents == old(documents.contents)[key := Kept(recorded[key], ChangeFor(changes, key), load)]
    {
      var change := updates.Get(key);
      var doc := documents.Get(key);
      failed := Check(key, doc.value, change, load, cache);
    }

    method CheckAll(updates: DocumentMap<UpdateItem>, ghost changes: seq<UpdateItem>, load: BlobLoader, cache: KeyPathCache)
      returns (v: Verdict, ghost culprit: DocKey)
      requires Valid() && cache.Valid() && updates.Valid() && updates.contents == LastChanges(changes)
      modifies documents, cache
      ensures Valid() && cache.Valid()
      ensures v == Answer(PASSED) <==>
              forall key | key in old(documents.contents) ::
                KeyPasses(key, old(documents.contents), changes, db.collections, load)
      ensures v != Answer(PASSED) ==>
                && culprit in old(documents.contents)
                && Blames(v, culprit, old(documents.contents), changes, db.collections, load)
      ensures v == Answer(PASSED) ==> documents.contents == AfterPassing(old(documents.contents), changes, load)
    {
      ghost var recorded, now := documents.contents, db.collections;
      var todo := documents.Keys();
      while todo != {}
        invariant Valid() && cache.Valid() && db.collections == now
        invariant Underway(documents.contents, todo, recorded, changes, now, load)
        decreases todo
      {
        var key :| key in todo;
        OneChecked(documents.contents, todo, key, recorded, changes, now, load);
        var failed := CheckKey(key, updates, changes, recorded, load, cache);
        if failed.Some? {
          return failed.value, key;
        }
        todo := todo - {key};
      }
      AllChecked(documents.contents, recorded, changes, now, load);
      v, culprit := Answer(PASSED), ("", "");
    }
  }

  /** What the snapshot holds for a document once it has checked out: its body as updated in place. */
  function Kept(recorded: Option<Json>, change: Option<UpdateItem>, load: BlobLoader): Option<Json> {
    if change.Some? && recorded.Some? && change.value.kind.Update? && Expected(recorded, change, load).Ok?
    then Expected(recorded, change, load).value
    else recorded
  }

  function AfterPassing(recorded: Recording, changes: seq<UpdateItem>, load: BlobLoader): Recording {
    map key | key in recorded :: Kept(recorded[key], ChangeFor(changes, key), load)
  }

  /** A later verification starts from the recorded document as updated by this one. */
  lemma KeptAsUpdated(recorded: Json, change: UpdateItem, load: BlobLoader)
    requires change.kind.Update? && Effect(Some(recorded), change, load).Ok?
    ensures Kept(Some(recorded), Some(change), load).Some?
    ensures Carries(change, recorded, Kept(Some(recorded), Some(change), load).value, load)
  {
    EffectCarries(Some(recorded), change, load);
  }

  /** Part of a verification: the documents of `todo` are still to be checked. */
  ghost predicate Underway(docs: Recording, todo: set<DocKey>, recorded: Recording, changes: seq<UpdateItem>,
                           now: Collections, load: BlobLoader)
  {
    && todo <= recorded.Keys == docs.Keys
    && (forall key | key in todo :: docs[key] == recorded[key])
    && (forall key | key in recorded.Keys - todo ::
          && KeyPasses(key, recorded, changes, now, load)
          && docs[key] == Kept(recorded[key], ChangeFor(changes, key), load))
  }

  lemma OneChecked(docs: Recording, todo: set<DocKey>, key: DocKey, recorded: Recording, changes: seq<UpdateItem>,
                   now: Collections, load: BlobLoader)
    requires Underway(docs, todo, recorded, changes, now, load) && key in todo
    ensures docs[key] == recorded[key]
    ensures KeyPasses(key, recorded, changes, now, load) ==>
              Underway(docs[key := Kept(recorded[key], ChangeFor(changes, key), load)], todo - {key},
                       recorded, changes, now, load)
  {
  }

  lemma AllChecked(docs: Recording, recorded: Recording, changes: seq<UpdateItem>, now: Collections, load: BlobLoader)
    requires Underway(docs, {}, recorded, changes, now, load)
    ensures docs == AfterPassing(recorded, changes, load)
    ensures forall key | key in recorded :: KeyPasses(key, recorded, changes, now, load)
  {
  }

  // ---------------------------------------------------------------- what passing means, in terms of the items' fields

  /** Item `i` is the last one that names the document as it was recorded. */
  predicate LastNaming(changes: seq<UpdateItem>, i: nat, key: DocKey) {
    && i < |changes| && changes[i].collection == key.0 && changes[i].documentID == key.1
    && forall j | i < j < |changes| :: !(changes[j].collection == key.0 && changes[j].documentID == key.1)
  }

  lemma {:induction false} LastNamingCounts(changes: seq<UpdateItem>, i: nat, key: DocKey)
    requires LastNaming(changes, i, key)
    ensures ChangeFor(changes, key) == Some(changes[i])
    decreases |changes|
  {
    var most := changes[..|changes| - 1];
    if i < |most| {
      assert most[i] == changes[i];
      assert forall j | i < j < |most| :: most[j] == changes[j];
      LastNamingCounts(most, i, key);
    }
  }

  lemma {:induction false} NotNamed(changes: seq<UpdateItem>, key: DocKey)
    requires forall i | 0 <= i < |changes| :: !(changes[i].collection == key.0 && changes[i].documentID == key.1)
    ensures ChangeFor(changes, key) == None
  {
    if changes != [] {
      var most := changes[..|changes| - 1];
      assert forall i | 0 <= i < |most| :: most[i] == changes[i];
      NotNamed(most, key);
    }
  }

  /** A document that no item names checks out when it looks as it was recorded, if it was. */
  lemma UnnamedPasses(key: DocKey, recorded: Recording, changes: seq<UpdateItem>, now: Collections, load: BlobLoader)
    requires key in recorded
    requires forall i | 0 <= i < |changes| :: !(changes[i].collection == key.0 && changes[i].documentID == key.1)
    ensures var current := Lookup(now, (NormalizeCollectionID(key.0), key.1));
            KeyPasses(key, recorded, changes, now, load)
            <==> if recorded[key].Some? && current.Some? then SameJson(recorded[key].value, current.value)
                 else recorded[key] == None && current == None
  {
    NotNamed(changes, key);
    AgreeIfSame(recorded[key], Lookup(now, (NormalizeCollectionID(key.0), key.1)));
  }

  /** One that an item names checks out by the last such item: it is absent if that deletes or purges
      it, and else looks like what the update makes of the recorded one. */
  lemma NamedPasses(key: DocKey, recorded: Recording, changes: seq<UpdateItem>, i: nat, now: Collections, load: BlobLoader)
    requires key in recorded && LastNaming(changes, i, key)
    ensures var current := Lookup(now, (NormalizeCollectionID(key.0), key.1));
            && (!changes[i].kind.Update? ==> (KeyPasses(key, recorded, changes, now, load) <==> current == None))
            && (changes[i].kind.Update? ==> (KeyPasses(key, recorded, changes, now, load) <==>
                  && current.Some?
                  && exists expected ::
                       && Effect(recorded[key], changes[i], load) == Ok(Some(expected))
                       && Carries(changes[i], Start(recorded[key]), expected, load)
                       && SameJson(expected, current.value)))
  {
    LastNamingCounts(changes, i, key);
    var current := Lookup(now, (NormalizeCollectionID(key.0), key.1));
    if changes[i].kind.Update? && Effect(recorded[key], changes[i], load).Ok? {
      EffectCarries(recorded[key], changes[i], load);
      AgreeIfSame(Effect(recorded[key], changes[i], load).value, current);
    }
  }

  // ---------------------------------------------------------------- what a failure says

  /** What is said of a document that is there, or is not, against expectation. */
  function AbsenceText(change: Option<UpdateItem>, current: Option<Json>): string {
    if current.None? then " was not found"
    else if change.None? then " should not exist"
    else if change.value.kind == Delete then " was not deleted"
    else " was not purged"
  }

  lemma AbsenceReported(r: Response, key: DocKey, expected: Option<Json>, change: Option<UpdateItem>, current: Option<Json>)
    requires Mismatches(r, key, expected, change, current) && (expected.None? || current.None?)
    requires change.Some? && change.value.kind.Update? ==> expected.Some?
    ensures r == Response(false, Some("Document " + key.1 + " in collection " + key.0 + AbsenceText(change, current)),
                          None, None, None)
  {
    var text := AbsenceText(change, current);
    assert text == " " + text[1..];
    DescribedAs(key, Failure(text[1..]), text[1..]);
  }

  lemma DescribedAs(key: DocKey, r: Response, text: string)
    requires r.description == Some(text)
    ensures Described(key, r).description
            == Some("Document " + key.1 + " in collection " + key.0 + (" " + text))
  {
    assert "Document " + key.1 + " in collection " + key.0 + " " + text
        == "Document " + key.1 + " in collection " + key.0 + (" " + text);
  }

  /** A mismatch is reported with the path to it, the values there, and, for an update, the document. */
  lemma MismatchReported(r: Response, key: DocKey, expected: Json, change: Option<UpdateItem>, current: Json)
    returns (at: Path)
    requires Mismatches(r, key, Some(expected), change, Some(current))
    ensures CanReport(Some(DocToJson(expected)), Some(DocToJson(current)), at)
    ensures r == Response(
              false,
              Some("Document " + key.1 + " in collection " + key.0 + (" " + ("had unexpected properties at " + ComponentsToString(at)))),
              Read(DocToJson(current), at), Read(DocToJson(expected), at),
              if change.Some? && change.value.kind == Update then Some(current) else None)
  {
    var kind := if change.Some? then Some(change.value.kind) else None;
    var inner: Response :|
      Tells(inner, Some(expected), kind, Some(current)) && r == Attached(change, Some(current), Described(key, inner));
    at := ToldAt(inner, expected, current);
    DescribedMismatch(key, at, Read(DocToJson(expected), at), Read(DocToJson(current), at));
  }

  lemma DescribedMismatch(key: DocKey, at: Path, exp: Option<Json>, act: Option<Json>)
    ensures Described(key, MismatchAt(at, exp, act))
            == Response(
                 false,
                 Some("Document " + key.1 + " in collection " + key.0 + (" " + ("had unexpected properties at " + ComponentsToString(at)))),
                 act, exp, None)
  {
    DescribedAs(key, MismatchAt(at, exp, act), "had unexpected properties at " + ComponentsToString(at));
  }

  lemma ToldAt(inner: Response, expected: Json, current: Json) returns (at: Path)
    requires Differ(Different, Some(DocToJson(expected)), Some(DocToJson(current)), Some(inner))
    ensures CanReport(Some(DocToJson(expected)), Some(DocToJson(current)), at)
    ensures inner == MismatchAt(at, Read(DocToJson(expected), at), Read(DocToJson(current), at))
  {
    var exp, act := DocToJson(expected), DocToJson(current);
    at :| Witnesses(Some(exp), Some(act), at, inner) && inner == MismatchAt(at, inner.expected, inner.actual);
  }

  // ---------------------------------------------------------------- when a verification crashes

  /** The expected and the current form of a recorded document, if both are there. */
  function Compared(key: DocKey, recorded: Recording, changes: seq<UpdateItem>, now: Collections, load: BlobLoader)
    : Option<(Json, Json)>
    requires key in recorded
  {
    match (Expected(recorded[key], ChangeFor(changes, key), load), Lookup(now, Normal(key)))
    case (Ok(Some(expected)), Some(current)) => Some((DocToJson(expected), DocToJson(current)))
    case _ => None
  }

  /** No edit throws the error of a comparison. */
  lemma {:induction false} EditsDoNotCrash(doc: Json, edits: seq<Edit>, load: BlobLoader)
    ensures ApplyEdits(doc, edits, load) != Err(ComparisonCrash)
  {
    if edits != [] {
      EditsDoNotCrash(doc, edits[..|edits| - 1], load);
    }
  }

  /** A verification crashes only over a document that is compared and may throw. It is sure to
      crash if every document that does not check out is compared and must not be reported. */
  lemma VerifyCrashes(v: Verdict, culprit: DocKey, recorded: Recording, changes: seq<UpdateItem>,
                      now: Collections, load: BlobLoader)
    requires IsVerdict(v, culprit, recorded, changes, now, load)
    ensures v == Throws(ComparisonCrash) ==>
              && culprit in recorded && Compared(culprit, recorded, changes, now, load).Some?
              && var (expected, current) := Compared(culprit, recorded, changes, now, load).value;
                 MayThrow(Some(expected), Some(current))
    ensures !NamesUnrecorded(changes, recorded) && !Passes(recorded, changes, now, load)
            && (forall key | key in recorded && !KeyPasses(key, recorded, changes, now, load) ::
                  && Compared(key, recorded, changes, now, load).Some?
                  && var (expected, current) := Compared(key, recorded, changes, now, load).value;
                     !MayReport(Some(expected), Some(current)))
            ==> v == Throws(ComparisonCrash)
  {
    if v != Answer(PASSED) && !NamesUnrecorded(changes, recorded) {
      BlamedFails(v, culprit, recorded, changes, now, load);
      BlamedDecided(v, culprit, recorded, changes, now, load);
    }
  }

  lemma BlamedFails(v: Verdict, key: DocKey, recorded: Recording, changes: seq<UpdateItem>,
                    now: Collections, load: BlobLoader)
    requires key in recorded && Blames(v, key, recorded, changes, now, load)
    ensures !KeyPasses(key, recorded, changes, now, load)
  {
    match Expected(recorded[key], ChangeFor(changes, key), load)
    case Err(_) =>
    case Ok(expected) =>
      if v.Throws? {
        var exp, act := Some(DocToJson(expected.value)), Some(DocToJson(Lookup(now, Normal(key)).value));
        var at := ThrowPosition(exp, act);
      }
  }

  lemma TellsMayReport(inner: Response, expected: Option<Json>, kind: Option<Kind>, current: Option<Json>)
    requires Tells(inner, expected, kind, current) && expected.Some? && current.Some?
    ensures MayReport(Some(DocToJson(expected.value)), Some(DocToJson(current.value)))
  {
    DifferMay(Different, Some(DocToJson(expected.value)), Some(DocToJson(current.value)), Some(inner));
  }

  lemma MismatchMayReport(r: Response, key: DocKey, expected: Option<Json>, change: Option<UpdateItem>, current: Option<Json>)
    requires Mismatches(r, key, expected, change, current) && expected.Some? && current.Some?
    ensures MayReport(Some(DocToJson(expected.value)), Some(DocToJson(current.value)))
  {
    var kind := if change.Some? then Some(change.value.kind) else None;
    var inner: Response :| Tells(inner, expected, kind, current) && r == Attached(change, current, Described(key, inner));
    TellsMayReport(inner, expected, kind, current);
  }

  lemma BlamedDecided(v: Verdict, key: DocKey, recorded: Recording, changes: seq<UpdateItem>,
                      now: Collections, load: BlobLoader)
    requires key in recorded && Blames(v, key, recorded, changes, now, load)
    ensures match Compared(key, recorded, changes, now, load)
            case None => v != Throws(ComparisonCrash)
            case Some((expected, current)) =>
              && (v == Throws(ComparisonCrash) ==> MayThrow(Some(expected), Some(current)))
              && (v != Throws(ComparisonCrash) ==> MayReport(Some(expected), Some(current)))
  {
    var change, current := ChangeFor(changes, key), Lookup(now, Normal(key));
    if change.Some? && change.value.kind.Update? {
      var doc := if recorded[key].Some? then recorded[key].value else EMPTY_DOCUMENT;
      EditsDoNotCrash(doc, Edits(change.value), load);
    }
    match Expected(recorded[key], change, load)
    case Err(_) =>
    case Ok(expected) =>
      if v.Answer? && expected.Some? && current.Some? {
        MismatchMayReport(v.response, key, expected, change, current);
      }
  }

  /** A document was recorded with an object under some key, where the database now has null:
      verifying it answers with an error instead of reporting the mismatch. */
  lemma NullForObjectCrashes(v: Verdict, culprit: DocKey, id: string, k: string, load: BlobLoader)
    requires IsVerdict(v, culprit, map[("c", id) := Some(Obj(map[k := EMPTY_DOCUMENT]))], [],
                       map["c" := map[id := Obj(map[k := Null])]], load)
    ensures v == Throws(ComparisonCrash)
  {
    var expected, current := Obj(map[k := EMPTY_DOCUMENT]), Obj(map[k := Null]);
    var key, recorded: Recording := ("c", id), map[("c", id) := Some(expected)];
    var now: Collections := map["c" := map[id := current]];
    NullForObjectThrows(k);
    DocToJsonIsPlain(expected);
    DocToJsonIsPlain(current);
    assert Normal(key) == key && Compared(key, recorded, [], now, load) == Some((expected, current));
    assert !KeyPasses(key, recorded, [], now, load);
    VerifyCrashes(v, culprit, recorded, [], now, load);
  }
}

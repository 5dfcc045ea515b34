/** Snapshot, update, verify: the two separate treatments of an update list agree end to end. */
module RoundTrip {
  import opened Wrappers
  import opened Json
  import opened Comparison
  import opened Updates
  import opened Databases
  import opened Snapshots
  import opened DatabaseUpdates

  ghost predicate RecordingOf(recorded: Recording, before: Collections) {
    forall key | key in recorded :: recorded[key] == Lookup(before, Normal(key))
  }

  /** The item names the recorded document, but spells its collection differently. */
  predicate OtherSpelling(u: UpdateItem, key: DocKey) {
    Target(u) == Normal(key) && Spelled(u) != key
  }

  /** The item, made on the document as it is, would change nothing that a comparison sees. */
  predicate NoVisibleEffect(doc: Option<Json>, u: UpdateItem, load: BlobLoader) {
    var effect := Effect(doc, u, load);
    effect.Ok? && DocsAgree(doc, effect.value)
  }

  /** The document is found as it should be after the request with these items. */
  predicate DocumentPasses(key: DocKey, doc: Option<Json>, updates: seq<UpdateItem>, load: BlobLoader) {
    var run := DocRun(doc, updates, Normal(key), load);
    run.Ok? && ChecksOut(doc, ChangeFor(updates, key), Settled(run.value), load)
  }

  /** Record documents, run an update request, then verify with the same list: unless the request
      threw, verification judges each document by the items for it alone. */
  lemma VerifiedByDocument(recorded: Recording, before: Collections, updates: seq<UpdateItem>, load: BlobLoader)
    requires RecordingOf(recorded, before) && !NamesUnrecorded(updates, recorded)
    requires StageAll(Stage(before, map[]), updates, load).Ok?
    ensures var after := Commit(StageAll(Stage(before, map[]), updates, load).value);
            Passes(recorded, updates, after, load)
            <==> forall key | key in recorded :: DocumentPasses(key, recorded[key], updates, load)
  {
    var after := Commit(StageAll(Stage(before, map[]), updates, load).value);
    forall key | key in recorded
      ensures KeyPasses(key, recorded, updates, after, load) <==> DocumentPasses(key, recorded[key], updates, load)
    {
      RequestEffect(before, updates, load, Normal(key));
    }
  }

  // ---------------------------------------------------------------- each document named once

  lemma ChangeForStep(updates: seq<UpdateItem>, key: DocKey)
    requires updates != []
    ensures var u := updates[|updates| - 1];
            ChangeFor(updates, key) == if Spelled(u) == key then Some(u) else ChangeFor(updates[..|updates| - 1], key)
  {
  }

  /** Without items for the document, it is left alone. */
  lemma {:induction false} Untouched(key: DocKey, doc: Option<Json>, updates: seq<UpdateItem>, load: BlobLoader)
    requires forall i | 0 <= i < |updates| :: Target(updates[i]) != Normal(key)
    ensures DocRun(doc, updates, Normal(key), load) == Ok(DocStage(doc, None, false))
    ensures ChangeFor(updates, key) == None
  {
    if updates != [] {
      Untouched(key, doc, updates[..|updates| - 1], load);
    }
  }

  /** No item that spells the document's collection in another way has a visible effect on it. */
  predicate NothingUnseen(key: DocKey, doc: Option<Json>, updates: seq<UpdateItem>, load: BlobLoader) {
    forall i | 0 <= i < |updates| && OtherSpelling(updates[i], key) :: NoVisibleEffect(doc, updates[i], load)
  }

  lemma NothingUnseenStep(key: DocKey, doc: Option<Json>, updates: seq<UpdateItem>, load: BlobLoader)
    requires updates != []
    ensures var u, most := updates[|updates| - 1], updates[..|updates| - 1];
            NothingUnseen(key, doc, updates, load)
            <==> NothingUnseen(key, doc, most, load) && (OtherSpelling(u, key) ==> NoVisibleEffect(doc, u, load))
  {
    var most := updates[..|updates| - 1];
    assert forall i | 0 <= i < |most| :: most[i] == updates[i];
  }

  /** One document, named at most once. */
  lemma {:induction false} DocumentRoundTrip(key: DocKey, doc: Option<Json>, updates: seq<UpdateItem>, load: BlobLoader)
    requires OncePerDocument(updates)
    requires DocRun(doc, updates, Normal(key), load).Ok?
    ensures DocumentPasses(key, doc, updates, load)
            <==> NothingUnseen(key, doc, updates, load)
  {
    if updates == [] {
      Untouched(key, doc, updates, load);
    } else {
      var n := |updates| - 1;
      var most := updates[..n];
      assert forall i | 0 <= i < n :: most[i] == updates[i];
      if Target(updates[n]) == Normal(key) {
        Untouched(key, doc, most, load);
        OnlyItem(key, doc, updates, load);
        assert NothingUnseen(key, doc, most, load);
      } else {
        DocumentRoundTrip(key, doc, most, load);
        ItemElsewhere(key, doc, updates, load);
      }
      NothingUnseenStep(key, doc, updates, load);
    }
  }

  /** The last item of the list is for another document. */
  lemma ItemElsewhere(key: DocKey, doc: Option<Json>, updates: seq<UpdateItem>, load: BlobLoader)
    requires updates != [] && Target(updates[|updates| - 1]) != Normal(key)
    ensures DocumentPasses(key, doc, updates, load) <==> DocumentPasses(key, doc, updates[..|updates| - 1], load)
  {
    ChangeForStep(updates, key);
  }

  /** The last item of the list is the only one for the document. */
  lemma OnlyItem(key: DocKey, doc: Option<Json>, updates: seq<UpdateItem>, load: BlobLoader)
    requires updates != [] && Target(updates[|updates| - 1]) == Normal(key)
    requires DocRun(doc, updates, Normal(key), load).Ok?
    requires DocRun(doc, updates[..|updates| - 1], Normal(key), load) == Ok(DocStage(doc, None, false))
    requires ChangeFor(updates[..|updates| - 1], key) == None
    ensures var u := updates[|updates| - 1];
            DocumentPasses(key, doc, updates, load) <==> (OtherSpelling(u, key) ==> NoVisibleEffect(doc, u, load))
  {
    ChangeForStep(updates, key);
  }

  /** When each document is named at most once, verification passes exactly when no item has a
      visible effect on a document recorded under another spelling. */
  lemma SnapshotUpdateVerify(recorded: Recording, before: Collections, updates: seq<UpdateItem>, load: BlobLoader)
    requires RecordingOf(recorded, before) && OncePerDocument(updates) && !NamesUnrecorded(updates, recorded)
    requires StageAll(Stage(before, map[]), updates, load).Ok?
    ensures var after := Commit(StageAll(Stage(before, map[]), updates, load).value);
            Passes(recorded, updates, after, load)
            <==> forall key | key in recorded :: NothingUnseen(key, recorded[key], updates, load)
  {
    VerifiedByDocument(recorded, before, updates, load);
    forall key | key in recorded
      ensures DocumentPasses(key, recorded[key], updates, load) <==> NothingUnseen(key, recorded[key], updates, load)
    {
      RequestEffect(before, updates, load, Normal(key));
      DocumentRoundTrip(key, recorded[key], updates, load);
    }
  }

  // ---------------------------------------------------------------- documents named repeatedly

  /** All items for the document spell its collection as it was recorded. */
  predicate OneSpelling(updates: seq<UpdateItem>, key: DocKey) {
    forall i | 0 <= i < |updates| :: !OtherSpelling(updates[i], key)
  }

  /** The last item for the document settles what the items before it leave open: a deletion always,
      a purge if nothing is saved or it is deleted anyway, an update if nothing is deleted and no
      earlier purge makes a difference to it. */
  predicate LastPrevails(key: DocKey, doc: Option<Json>, updates: seq<UpdateItem>, load: BlobLoader) {
    match ChangeFor(updates, key)
    case None => true
    case Some(u) =>
      match u.kind
      case Delete => true
      case Purge => Asks(updates, Delete, Normal(key)) || !Asks(updates, Update, Normal(key))
      case Update =>
        && !Asks(updates, Delete, Normal(key))
        && (Asks(updates, Purge, Normal(key)) ==> SameEffect(doc, None, u, load))
  }

  /** The update comes to the same, as far as a comparison sees, on either document. */
  predicate SameEffect(a: Option<Json>, b: Option<Json>, u: UpdateItem, load: BlobLoader) {
    var onA, onB := Effect(a, u, load), Effect(b, u, load);
    onA.Ok? && onB.Ok? && DocsAgree(onA.value, onB.value)
  }

  /** The last item for a document, after others that made `d` of it. */
  lemma LastItem(doc: Option<Json>, d: DocStage, u: UpdateItem, load: BlobLoader)
    requires DocStep(d, u, load).Ok?
    ensures ChecksOut(doc, Some(u), Settled(DocStep(d, u, load).value), load)
            <==> match u.kind
                 case Delete => true
                 case Purge => d.deleted || d.saved.None?
                 case Update => !d.deleted && SameEffect(doc, d.current, u, load)
  {
  }

  /** The last item of the list is for the document. */
  lemma EndsWithItem(key: DocKey, doc: Option<Json>, updates: seq<UpdateItem>, load: BlobLoader)
    requires updates != [] && Spelled(updates[|updates| - 1]) == key
    requires DocRun(doc, updates, Normal(key), load).Ok?
    ensures DocumentPasses(key, doc, updates, load) <==> LastPrevails(key, doc, updates, load)
  {
    var u, most := updates[|updates| - 1], updates[..|updates| - 1];
    ChangeForStep(updates, key);
    var d := DocRun(doc, most, Normal(key), load).value;
    LastItem(doc, d, u, load);
    DocRunSums(doc, most, Normal(key), load);
    if u.kind.Update? {
      assert Effect(d.current, u, load).Ok?;
      AsksStep(updates, Delete, Normal(key));
      AsksStep(updates, Purge, Normal(key));
    } else if u.kind.Purge? {
      AsksStep(updates, Delete, Normal(key));
      AsksStep(updates, Update, Normal(key));
    }
  }

  /** The last item of the list is for another document. */
  lemma EndsElsewhere(key: DocKey, doc: Option<Json>, updates: seq<UpdateItem>, load: BlobLoader)
    requires updates != [] && Target(updates[|updates| - 1]) != Normal(key)
    ensures LastPrevails(key, doc, updates, load) <==> LastPrevails(key, doc, updates[..|updates| - 1], load)
  {
    ChangeForStep(updates, key);
    AsksStep(updates, Update, Normal(key));
    AsksStep(updates, Delete, Normal(key));
    AsksStep(updates, Purge, Normal(key));
  }

  /** One document, named any number of times under one spelling. */
  lemma {:induction false} RepeatedRoundTrip(key: DocKey, doc: Option<Json>, updates: seq<UpdateItem>, load: BlobLoader)
    requires OneSpelling(updates, key)
    requires DocRun(doc, updates, Normal(key), load).Ok?
    ensures DocumentPasses(key, doc, updates, load) <==> LastPrevails(key, doc, updates, load)
  {
    if updates == [] {
      Untouched(key, doc, updates, load);
    } else {
      var n := |updates| - 1;
      assert !OtherSpelling(updates[n], key);
      if Target(updates[n]) == Normal(key) {
        EndsWithItem(key, doc, updates, load);
      } else {
        EndsElsewhere(key, doc, updates, load);
        ItemElsewhere(key, doc, updates, load);
        assert forall i | 0 <= i < n :: updates[..n][i] == updates[i];
        RepeatedRoundTrip(key, doc, updates[..n], load);
      }
    }
  }

  /** However often documents are named, as long as they are spelled one way: verification passes
      exactly when for each of them the last item prevails. */
  lemma RepeatedItems(recorded: Recording, before: Collections, updates: seq<UpdateItem>, load: BlobLoader)
    requires RecordingOf(recorded, before) && !NamesUnrecorded(updates, recorded)
    requires forall key | key in recorded :: OneSpelling(updates, key)
    requires StageAll(Stage(before, map[]), updates, load).Ok?
    ensures var after := Commit(StageAll(Stage(before, map[]), updates, load).value);
            Passes(recorded, updates, after, load)
            <==> forall key | key in recorded :: LastPrevails(key, recorded[key], updates, load)
  {
    VerifiedByDocument(recorded, before, updates, load);
    forall key | key in recorded
      ensures DocumentPasses(key, recorded[key], updates, load) <==> LastPrevails(key, recorded[key], updates, load)
    {
      RequestEffect(before, updates, load, Normal(key));
      RepeatedRoundTrip(key, recorded[key], updates, load);
    }
  }

  // ---------------------------------------------------------------- any list at all

  /** What verification expects, by the last item under the recorded spelling, is what is left by the
      items under all spellings. */
  predicate ItemsAgree(key: DocKey, doc: Option<Json>, updates: seq<UpdateItem>, load: BlobLoader) {
    match (ChangeFor(updates, key), LeftBehind(updates, Normal(key)))
    case (None, LeftAlone) => true
    case (None, Removed) => doc.None?
    case (None, Saved(u, afterPurge)) => SameAfter(doc, if afterPurge then None else doc, u, load)
    case (Some(c), LeftAlone) => false
    case (Some(c), Removed) => !c.kind.Update?
    case (Some(c), Saved(u, afterPurge)) =>
      && c.kind.Update? && Effect(doc, c, load).Ok?
      && SameAfter(Effect(doc, c, load).value, if afterPurge then None else doc, u, load)
  }

  /** The update of `before` gives what a comparison takes for `expected`. */
  predicate SameAfter(expected: Option<Json>, before: Option<Json>, u: UpdateItem, load: BlobLoader) {
    Effect(before, u, load).Ok? && DocsAgree(expected, Effect(before, u, load).value)
  }

  lemma {:induction false} ChangeAsks(updates: seq<UpdateItem>, key: DocKey)
    requires ChangeFor(updates, key).Some?
    ensures Asks(updates, ChangeFor(updates, key).value.kind, Normal(key))
  {
    ChangeForStep(updates, key);
    var u, most := updates[|updates| - 1], updates[..|updates| - 1];
    if Spelled(u) == key {
      assert updates[|updates| - 1].kind == u.kind && Target(u) == Normal(key);
    } else {
      ChangeAsks(most, key);
      AsksStep(updates, ChangeFor(updates, key).value.kind, Normal(key));
    }
  }

  lemma MixedRoundTrip(key: DocKey, doc: Option<Json>, updates: seq<UpdateItem>, load: BlobLoader)
    requires DocRun(doc, updates, Normal(key), load).Ok?
    ensures DocumentPasses(key, doc, updates, load) <==> ItemsAgree(key, doc, updates, load)
  {
    LeavesDocument(doc, updates, Normal(key), load);
    var left := Settled(DocRun(doc, updates, Normal(key), load).value);
    var change := ChangeFor(updates, key);
    if change.Some? {
      ChangeAsks(updates, key);
      DocRunSums(doc, updates, Normal(key), load);
      DocRunSaves(doc, updates, Normal(key), load);
    }
    assert DocumentPasses(key, doc, updates, load) <==> ChecksOut(doc, change, left, load);
    match LeftBehind(updates, Normal(key))
    case LeftAlone => assert change.None?;
    case Removed =>
    case Saved(u, afterPurge) => assert Effect(if afterPurge then None else doc, u, load) == Ok(left) && left.Some?;
  }

  /** Whatever the list, repeated items and mixed spellings included: verification passes exactly
      when for each document the items agree. */
  lemma MixedItems(recorded: Recording, before: Collections, updates: seq<UpdateItem>, load: BlobLoader)
    requires RecordingOf(recorded, before) && !NamesUnrecorded(updates, recorded)
    requires StageAll(Stage(before, map[]), updates, load).Ok?
    ensures var after := Commit(StageAll(Stage(before, map[]), updates, load).value);
            Passes(recorded, updates, after, load)
            <==> forall key | key in recorded :: ItemsAgree(key, recorded[key], updates, load)
  {
    VerifiedByDocument(recorded, before, updates, load);
    forall key | key in recorded
      ensures DocumentPasses(key, recorded[key], updates, load) <==> ItemsAgree(key, recorded[key], updates, load)
    {
      RequestEffect(before, updates, load, Normal(key));
      MixedRoundTrip(key, recorded[key], updates, load);
    }
  }

  /** A document recorded under two spellings, and deleted under the first: verification then fails. */
  lemma TwoSpellingsFail(first: DocKey, second: DocKey, load: BlobLoader)
    requires first != second && Normal(first) == Normal(second)
    ensures var before: Collections := map[Normal(first).0 := map[first.1 := EMPTY_DOCUMENT]];
            var recorded: Recording := map[first := Some(EMPTY_DOCUMENT), second := Some(EMPTY_DOCUMENT)];
            var updates := [UpdateItem(Delete, first.0, first.1, [], [], [])];
            && RecordingOf(recorded, before) && OncePerDocument(updates) && !NamesUnrecorded(updates, recorded)
            && StageAll(Stage(before, map[]), updates, load).Ok?
            && !Passes(recorded, updates, Commit(StageAll(Stage(before, map[]), updates, load).value), load)
  {
    var before: Collections := map[Normal(first).0 := map[first.1 := EMPTY_DOCUMENT]];
    var recorded: Recording := map[first := Some(EMPTY_DOCUMENT), second := Some(EMPTY_DOCUMENT)];
    var u := UpdateItem(Delete, first.0, first.1, [], [], []);
    DeletionStaged(before, u, load);
    OtherDocumentFails(second, Some(EMPTY_DOCUMENT), u, load);
    VerifiedByDocument(recorded, before, [u], load);
  }

  /** There are such spellings. */
  lemma SpelledTwice(id: string)
    ensures Normal(("c", id)) == Normal(("_default.c", id)) && ("c", id) != ("_default.c", id)
  {
    assert "_default.c"[9..] == "c" && !("_default." <= "c");
    assert |"c"| != |"_default.c"|;
  }

  lemma DeletionStaged(before: Collections, u: UpdateItem, load: BlobLoader)
    requires u.kind.Delete? && Target(u).0 in before
    ensures StageAll(Stage(before, map[]), [u], load).Ok?
  {
    assert [u][..0] == [];
    assert StageAll(Stage(before, map[]), [], load) == Ok(Stage(before, map[]));
  }

  lemma OtherDocumentFails(key: DocKey, doc: Option<Json>, u: UpdateItem, load: BlobLoader)
    requires u.kind.Delete? && doc.Some? && OtherSpelling(u, key)
    ensures !DocumentPasses(key, doc, [u], load)
  {
    assert [u][..0] == [];
    Untouched(key, doc, [], load);
    ChangeForStep([u], key);
  }

  /** The command that makes a snapshot: every document listed is recorded. */
  method SnapshotDocuments(db: Database, keys: seq<DocKey>) returns (r: Result<Snapshot, Error>)
    ensures r.Ok? ==>
              var snapshot := r.value;
              && fresh(snapshot) && fresh(snapshot.documents) && snapshot.db == db && snapshot.Valid()
              && snapshot.documents.contents.Keys == (set k | k in keys)
              && RecordingOf(snapshot.documents.contents, db.collections)
    ensures r.Err? <==> exists k | k in keys :: Normal(k).0 !in db.collections
  {
    var snapshot := new Snapshot(db);
    for n := 0 to |keys|
      invariant snapshot.Valid() && fresh(snapshot) && fresh(snapshot.documents) && snapshot.db == db
      invariant snapshot.documents.contents.Keys == (set k | k in keys[..n])
      invariant forall k | k in keys[..n] :: Normal(k).0 in db.collections
      invariant RecordingOf(snapshot.documents.contents, db.collections)
    {
      assert keys[..n + 1] == keys[..n] + [keys[n]];
      var error := snapshot.Record(keys[n]);
      if error.Some? {
        return Err(error.value);
      }
    }
    assert keys[..|keys|] == keys;
    r := Ok(snapshot);
  }

  /** The three commands in a row, on the documents `keys`, with any list of updates. */
  method RecordUpdateVerify(tdk: Tdk, keys: seq<DocKey>, updates: seq<UpdateItem>, load: BlobLoader)
    returns (error: Option<Error>, verdict: Option<Verdict>)
    requires tdk.Valid()
    modifies tdk.db, tdk.cache
    ensures error == None ==> verdict.Some?
    ensures error == None ==>
              (verdict == Some(Answer(PASSED)) <==> AllAgree(keys, old(tdk.db.collections), updates, load))
    ensures error == None && PlainList(keys, updates) ==> verdict == Some(Answer(PASSED))
  {
    ghost var before := tdk.db.collections;
    var snapshot := SnapshotDocuments(tdk.db, keys);
    if snapshot.Err? {
      return Some(snapshot.error), None;
    }
    ghost var recorded := snapshot.value.documents.contents;
    error, verdict := UpdateThenVerify(tdk, snapshot.value, updates, load);
    if error == None {
      PassesWhen(recorded, before, keys, updates, load);
    }
  }

  /** The update command, and verification against a snapshot with the same list. */
  method UpdateThenVerify(tdk: Tdk, snapshot: Snapshot, updates: seq<UpdateItem>, load: BlobLoader)
    returns (error: Option<Error>, verdict: Option<Verdict>)
    requires tdk.Valid() && snapshot.Valid() && snapshot.db == tdk.db
    modifies tdk.db, tdk.cache, snapshot.documents
    ensures var staged := StageAll(Stage(old(tdk.db.collections), map[]), updates, load);
            && (error == None <==> staged.Ok?)
            && (staged.Ok? ==>
                  && verdict.Some?
                  && (verdict == Some(Answer(PASSED))
                      <==> Passes(old(snapshot.documents.contents), updates, Commit(staged.value), load)))
  {
    ghost var failedAt;
    StagingIsOf(tdk.db.collections, updates, load);
    error, failedAt := tdk.UpdateDatabase(updates, load);
    if error.Some? {
      return error, None;
    }
    var v;
    ghost var culprit;
    v, culprit := snapshot.Verify(updates, load, tdk.cache);
    verdict := Some(v);
  }

  lemma StagingIsOf(before: Collections, updates: seq<UpdateItem>, load: BlobLoader)
    ensures var staged := StageAll(Stage(before, map[]), updates, load);
            staged.Ok? ==> Commit(staged.value).Keys == before.Keys
  {
    if StageAll(Stage(before, map[]), updates, load).Ok? {
      StagingOnlyPurges(before, updates, load);
    }
  }

  /** Every item names a recorded document, and for each of these the items agree. */
  predicate AllAgree(keys: seq<DocKey>, before: Collections, updates: seq<UpdateItem>, load: BlobLoader) {
    && (forall i | 0 <= i < |updates| :: Spelled(updates[i]) in keys)
    && (forall key | key in keys :: ItemsAgree(key, Lookup(before, Normal(key)), updates, load))
  }

  /** Every item names a recorded document as it was spelled, and none is named twice. */
  ghost predicate PlainList(keys: seq<DocKey>, updates: seq<UpdateItem>) {
    && OncePerDocument(updates)
    && (forall i | 0 <= i < |updates| :: Spelled(updates[i]) in keys)
    && (forall key | key in keys :: OneSpelling(updates, key))
  }

  lemma PassesWhen(recorded: Recording, before: Collections, keys: seq<DocKey>, updates: seq<UpdateItem>, load: BlobLoader)
    requires RecordingOf(recorded, before) && recorded.Keys == (set k | k in keys)
    requires StageAll(Stage(before, map[]), updates, load).Ok?
    ensures var after := Commit(StageAll(Stage(before, map[]), updates, load).value);
            && (Passes(recorded, updates, after, load) <==> AllAgree(keys, before, updates, load))
            && (PlainList(keys, updates) ==> Passes(recorded, updates, after, load))
  {
    NamedAreRecorded(recorded, keys, updates);
    if !NamesUnrecorded(updates, recorded) {
      MixedItems(recorded, before, updates, load);
      assert forall key :: key in recorded <==> key in keys;
      if PlainList(keys, updates) {
        PlainListPasses(recorded, before, keys, updates, load);
      }
    }
  }

  lemma PlainListPasses(recorded: Recording, before: Collections, keys: seq<DocKey>, updates: seq<UpdateItem>, load: BlobLoader)
    requires RecordingOf(recorded, before) && recorded.Keys == (set k | k in keys)
    requires StageAll(Stage(before, map[]), updates, load).Ok? && PlainList(keys, updates)
    requires !NamesUnrecorded(updates, recorded)
    ensures Passes(recorded, updates, Commit(StageAll(Stage(before, map[]), updates, load).value), load)
  {
    forall key | key in recorded ensures NothingUnseen(key, recorded[key], updates, load) {
      assert key in keys && OneSpelling(updates, key);
    }
    SnapshotUpdateVerify(recorded, before, updates, load);
  }

  lemma NamedAreRecorded(recorded: Recording, keys: seq<DocKey>, updates: seq<UpdateItem>)
    requires recorded.Keys == (set k | k in keys)
    ensures !NamesUnrecorded(updates, recorded) <==> forall i | 0 <= i < |updates| :: Spelled(updates[i]) in keys
  {
    if !NamesUnrecorded(updates, recorded) {
      forall i | 0 <= i < |updates| ensures Spelled(updates[i]) in keys {
        assert updates[i] in updates;
      }
    }
  }
}

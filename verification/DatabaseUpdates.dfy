/** The UpdateDatabase command, and its agreement with snapshot verification. */
module DatabaseUpdates {
  import opened Wrappers
  import opened Json
  import opened CollectionNames
  import opened KeyPathAccess
  import opened Comparison
  import opened Updates
  import opened Databases

  /** Halfway through a request: the database so far, and the batch gathered for each collection. */
  datatype Stage = Stage(collections: Collections, batches: map<string, CollectionUpdates>)

  function Batch(s: Stage, collection: string): CollectionUpdates {
    if collection in s.batches then s.batches[collection] else NO_UPDATES
  }

  /** One item of the request: an update or a deletion joins the batch, a purge happens at once. */
  function StageOne(s: Stage, u: UpdateItem, load: BlobLoader): Result<Stage, Error> {
    var (c, id) := Target(u);
    if c !in s.collections then Err(UnknownCollection)
    else
      var batch := Batch(s, c);
      match u.kind
      case Update =>
        (match Effect(Lookup(s.collections, (c, id)), u, load)
         case Err(e) => Err(e)
         case Ok(doc) => Ok(s.(batches := s.batches[c := batch.(save := batch.save + [(id, doc.value)])])))
      case Delete => Ok(s.(batches := s.batches[c := batch.(delete := batch.delete + [id])]))
      case Purge => Ok(Stage(s.collections[c := s.collections[c] - {id}], s.batches[c := batch]))
  }

  function StageAll(s: Stage, updates: seq<UpdateItem>, load: BlobLoader): Result<Stage, Error> {
    if updates == [] then Ok(s)
    else
      match StageAll(s, updates[..|updates| - 1], load)
      case Err(e) => Err(e)
      case Ok(before) => StageOne(before, updates[|updates| - 1], load)
  }

  /** The database once every batch has been carried out. */
  function Commit(s: Stage): Collections {
    map c | c in s.collections :: Committed(s.collections[c], Batch(s, c))
  }

  // ---------------------------------------------------------------- the command

  /** Is there an item of a kind for the document? */
  predicate Asks(updates: seq<UpdateItem>, kind: Kind, key: DocKey) {
    exists i | 0 <= i < |updates| :: updates[i].kind == kind && Target(updates[i]) == key
  }

  /** The databases differ by nothing but the purges among `updates`. */
  ghost predicate OnlyPurges(before: Collections, after: Collections, updates: seq<UpdateItem>) {
    && after.Keys == before.Keys
    && forall key: DocKey ::
         Lookup(after, key) == if Asks(updates, Purge, key) then None else Lookup(before, key)
  }

  lemma AsksStep(updates: seq<UpdateItem>, kind: Kind, key: DocKey)
    requires updates != []
    ensures var u := updates[|updates| - 1];
            Asks(updates, kind, key) <==> Asks(updates[..|updates| - 1], kind, key) || (u.kind == kind && Target(u) == key)
  {
    var most := updates[..|updates| - 1];
    if Asks(most, kind, key) {
      var i :| 0 <= i < |most| && most[i].kind == kind && Target(most[i]) == key;
      assert updates[i] == most[i];
    }
    if Asks(updates, kind, key) {
      var i :| 0 <= i < |updates| && updates[i].kind == kind && Target(updates[i]) == key;
      assert i < |most| ==> most[i] == updates[i];
    }
  }

  lemma StageOnePurges(s: Stage, u: UpdateItem, load: BlobLoader, key: DocKey)
    requires StageOne(s, u, load).Ok?
    ensures var t := StageOne(s, u, load).value;
            && t.collections.Keys == s.collections.Keys && t.batches.Keys == s.batches.Keys + {Target(u).0}
            && Lookup(t.collections, key)
               == if u.kind.Purge? && Target(u) == key then None else Lookup(s.collections, key)
  {
  }

  lemma {:induction false} StagingOnlyPurges(before: Collections, updates: seq<UpdateItem>, load: BlobLoader)
    requires StageAll(Stage(before, map[]), updates, load).Ok?
    ensures var s := StageAll(Stage(before, map[]), updates, load).value;
            OnlyPurges(before, s.collections, updates) && s.batches.Keys <= before.Keys
  {
    if updates != [] {
      var u, most := updates[|updates| - 1], updates[..|updates| - 1];
      StagingOnlyPurges(before, most, load);
      var s := StageAll(Stage(before, map[]), most, load).value;
      StageOnePurges(s, u, load, Target(u));
      forall key: DocKey
        ensures Lookup(StageOne(s, u, load).value.collections, key)
                == if Asks(updates, Purge, key) then None else Lookup(before, key)
      {
        AsksStep(updates, Purge, key);
        StageOnePurges(s, u, load, key);
      }
    }
  }

  lemma StageAllStep(s: Stage, updates: seq<UpdateItem>, i: nat, load: BlobLoader)
    requires i < |updates| && StageAll(s, updates[..i], load).Ok?
    ensures StageAll(s, updates[..i + 1], load) == StageOne(StageAll(s, updates[..i], load).value, updates[i], load)
  {
    assert updates[..i + 1][..i] == updates[..i];
  }

  class Tdk {
    const db: Database
    const cache: KeyPathCache

    ghost predicate Valid()
      reads this, cache
    {
      cache.Valid()
    }

    constructor (db: Database)
      ensures this.db == db && Valid() && fresh(cache)
    {
      this.db := db;
      cache := new KeyPathCache();
    }

    /** One item of the request, on the batches gathered so far. */
    method StageUpdate(batches: map<string, CollectionUpdates>, u: UpdateItem, load: BlobLoader)
      returns (r: Result<map<string, CollectionUpdates>, Error>)
      requires Valid()
      modifies db, cache
      ensures Valid()
      ensures match StageOne(Stage(old(db.collections), batches), u, load)
              case Err(e) => r == Err(e) && db.collections == old(db.collections)
              case Ok(t) => r == Ok(t.batches) && db.collections == t.collections
    {
      var c, id := NormalizeCollectionID(u.collection), u.documentID;
      if c !in db.collections {
        return Err(UnknownCollection);
      }
      var batch := NO_UPDATES;
      if c in batches {
        batch := batches[c];
      }
      var found := db.GetDocument(c, id);
      match u.kind {
        case Update =>
          var doc := new Document(if found.Some? then found.value else EMPTY_DOCUMENT);
          var error := ApplyUpdate(cache, doc, u, load);
          if error.Some? {
            return Err(error.value);
          }
          r := Ok(batches[c := batch.(save := batch.save + [(id, doc.body)])]);
        case Delete =>
          r := Ok(batches[c := batch.(delete := batch.delete + [id])]);
        case Purge =>
          db.PurgeDocument(c, id);  // the batch update does not do purges
          r := Ok(batches[c := batch]);
      }
    }

    /** The command. Documents to save and delete are collected first and written in a batch for
        each collection at the end. When item `failedAt` throws, all that has reached the database
        are the purges listed before it. */
    method UpdateDatabase(updates: seq<UpdateItem>, load: BlobLoader) returns (error: Option<Error>, ghost failedAt: nat)
      requires Valid()
      modifies db, cache
      ensures Valid()
      ensures match StageAll(Stage(old(db.collections), map[]), updates, load)
              case Err(e) => error == Some(e)
              case Ok(s) => error == None && db.collections == Commit(s)
      ensures error.Some? ==>
                && failedAt < |updates|
                && StageAll(Stage(old(db.collections), map[]), updates[..failedAt], load).Ok?
                && StageAll(Stage(old(db.collections), map[]), updates[..failedAt + 1], load).Err?
                && OnlyPurges(old(db.collections), db.collections, updates[..failedAt])
      ensures error == None <==> forall i | 0 <= i < |updates| :: !ItemThrows(old(db.collections), updates, i, load)
      ensures error == None ==>
                forall c, id :: LeftAsListed(old(db.collections), db.collections, updates, c, id, load)
    {
      ghost var start := Stage(db.collections, map[]);
      var batches: map<string, CollectionUpdates> := map[];
      failedAt := 0;
      for i := 0 to |updates|
        invariant Valid()
        invariant StageAll(start, updates[..i], load) == Ok(Stage(db.collections, batches))
      {
        StageAllStep(start, updates, i, load);
        StagingOnlyPurges(start.collections, updates[..i], load);
        var r := StageUpdate(batches, updates[i], load);
        if r.Err? {
          FailedAt(start, updates, i + 1, load);
          assert updates[..|updates|] == updates;
          StagedUntil(start.collections, updates, |updates|, load);
          return Some(r.error), i;
        }
        batches := r.value;
      }
      assert updates[..|updates|] == updates;
      StagingOnlyPurges(start.collections, updates, load);
      StagedUntil(start.collections, updates, |updates|, load);
      forall c, id ensures LeftAsListed(start.collections, Commit(Stage(db.collections, batches)), updates, c, id, load) {
        RequestLeaves(start.collections, updates, c, id, load);
      }
      CommitBatches(batches);
      error := None;
    }

    /** Carries out the batches, a collection at a time. */
    method CommitBatches(batches: map<string, CollectionUpdates>)
      requires batches.Keys <= db.collections.Keys
      modifies db
      ensures db.collections == Commit(Stage(old(db.collections), batches))
    {
      ghost var start := db.collections;
      var todo := batches.Keys;
      while todo != {}
        invariant todo <= batches.Keys && db.collections.Keys == start.Keys
        invariant forall c | c in start ::
                    db.collections[c] == if c in batches && c !in todo then Committed(start[c], batches[c]) else start[c]
        decreases todo
      {
        var c :| c in todo;
        db.UpdateMultiple(c, batches[c]);
        todo := todo - {c};
      }
      assert forall c | c in start && c !in batches :: Committed(start[c], NO_UPDATES) == start[c];
    }
  }

  lemma {:induction false} FailedAt(s: Stage, updates: seq<UpdateItem>, n: nat, load: BlobLoader)
    requires n <= |updates| && StageAll(s, updates[..n], load).Err?
    ensures StageAll(s, updates, load) == StageAll(s, updates[..n], load)
    decreases |updates|
  {
    if n < |updates| {
      var most := updates[..|updates| - 1];
      assert most[..n] == updates[..n];
      FailedAt(s, most, n, load);
    } else {
      assert updates[..n] == updates;
    }
  }

  // ---------------------------------------------------------------- what a request does to each document

  /** Halfway through a request, for one document: its body in the database, the body to be saved,
      and whether it is to be deleted. */
  datatype DocStage = DocStage(current: Option<Json>, saved: Option<Json>, deleted: bool)

  /** The body saved last under an ID. */
  function LastSaved(save: seq<(string, Json)>, id: string): Option<Json> {
    if save == [] then None
    else if save[|save| - 1].0 == id then Some(save[|save| - 1].1)
    else LastSaved(save[..|save| - 1], id)
  }

  function StageOf(s: Stage, key: DocKey): DocStage {
    DocStage(Lookup(s.collections, key), LastSaved(Batch(s, key.0).save, key.1), key.1 in Batch(s, key.0).delete)
  }

  /** The document once the batch has been carried out: deletions come after saves. */
  function Settled(d: DocStage): Option<Json> {
    if d.deleted then None else if d.saved.Some? then d.saved else d.current
  }

  /** One item for the document. An update starts from the body in the database, not the one to be saved. */
  function DocStep(d: DocStage, u: UpdateItem, load: BlobLoader): Result<DocStage, Error> {
    match u.kind
    case Update =>
      (match Effect(d.current, u, load)
       case Err(e) => Err(e)
       case Ok(doc) => Ok(d.(saved := doc)))
    case Delete => Ok(d.(deleted := true))
    case Purge => Ok(d.(current := None))
  }

  /** All items for the document `key`, in order. */
  function DocRun(before: Option<Json>, updates: seq<UpdateItem>, key: DocKey, load: BlobLoader): Result<DocStage, Error> {
    if updates == [] then Ok(DocStage(before, None, false))
    else
      var u := updates[|updates| - 1];
      match DocRun(before, updates[..|updates| - 1], key, load)
      case Err(e) => Err(e)
      case Ok(d) => if Target(u) == key then DocStep(d, u, load) else Ok(d)
  }

  lemma LastSavedStep(save: seq<(string, Json)>, id: string, body: Json, other: string)
    ensures LastSaved(save + [(id, body)], other) == if other == id then Some(body) else LastSaved(save, other)
  {
    assert (save + [(id, body)])[..|save|] == save;
  }

  /** An item takes its own document one step further, and no other. */
  lemma StageOneEffect(s: Stage, u: UpdateItem, load: BlobLoader, key: DocKey)
    requires StageOne(s, u, load).Ok?
    ensures var t := StageOf(StageOne(s, u, load).value, key);
            if Target(u) == key then DocStep(StageOf(s, key), u, load) == Ok(t) else t == StageOf(s, key)
  {
    var (c, id) := Target(u);
    match u.kind
    case Update =>
      var doc := Effect(Lookup(s.collections, (c, id)), u, load).value;
      var batch := Batch(s, c);
      LastSavedStep(batch.save, id, doc.value, key.1);
      BatchReplaced(s, c, batch.(save := batch.save + [(id, doc.value)]), key);
    case Delete =>
      var batch := Batch(s, c);
      BatchReplaced(s, c, batch.(delete := batch.delete + [id]), key);
    case Purge => BatchReplaced(Stage(s.collections[c := s.collections[c] - {id}], s.batches), c, Batch(s, c), key);
  }

  /** Another batch for collection `c`. */
  lemma BatchReplaced(s: Stage, c: string, batch: CollectionUpdates, key: DocKey)
    ensures StageOf(s.(batches := s.batches[c := batch]), key)
            == if key.0 == c then DocStage(Lookup(s.collections, key), LastSaved(batch.save, key.1), key.1 in batch.delete)
               else StageOf(s, key)
  {
  }

  lemma {:induction false} SavedLookup(docs: map<string, Json>, save: seq<(string, Json)>, id: string)
    ensures var saved := SaveAll(docs, save);
            (if id in saved then Some(saved[id]) else None)
            == if LastSaved(save, id).Some? then LastSaved(save, id)
               else if id in docs then Some(docs[id]) else None
  {
    if save != [] {
      SavedLookup(docs, save[..|save| - 1], id);
    }
  }

  lemma CommittedDocument(s: Stage, key: DocKey)
    requires s.batches.Keys <= s.collections.Keys
    ensures Lookup(Commit(s), key) == Settled(StageOf(s, key))
  {
    if key.0 in s.collections {
      SavedLookup(s.collections[key.0], Batch(s, key.0).save, key.1);
    }
  }

  /** A request leaves of each document what its items, taken by themselves, make of it. */
  lemma RequestEffect(before: Collections, updates: seq<UpdateItem>, load: BlobLoader, key: DocKey)
    requires StageAll(Stage(before, map[]), updates, load).Ok?
    ensures DocRun(Lookup(before, key), updates, key, load).Ok?
    ensures Lookup(Commit(StageAll(Stage(before, map[]), updates, load).value), key)
            == Settled(DocRun(Lookup(before, key), updates, key, load).value)
  {
    StagingOnlyPurges(before, updates, load);
    StageFollowsDocument(before, updates, load, key);
    CommittedDocument(StageAll(Stage(before, map[]), updates, load).value, key);
  }

  lemma {:induction false} StageFollowsDocument(before: Collections, updates: seq<UpdateItem>, load: BlobLoader, key: DocKey)
    requires StageAll(Stage(before, map[]), updates, load).Ok?
    ensures DocRun(Lookup(before, key), updates, key, load)
            == Ok(StageOf(StageAll(Stage(before, map[]), updates, load).value, key))
  {
    if updates != [] {
      var most := updates[..|updates| - 1];
      StageFollowsDocument(before, most, load, key);
      StageOneEffect(StageAll(Stage(before, map[]), most, load).value, updates[|updates| - 1], load, key);
    }
  }

  /** What the items for a document come to: any deletion prevails, then any update, and any purge
      takes away what is in the database. */
  lemma {:induction false} DocRunSums(before: Option<Json>, updates: seq<UpdateItem>, key: DocKey, load: BlobLoader)
    requires DocRun(before, updates, key, load).Ok?
    ensures var d := DocRun(before, updates, key, load).value;
            && (d.deleted <==> Asks(updates, Delete, key))
            && (d.saved.Some? <==> Asks(updates, Update, key))
            && d.current == if Asks(updates, Purge, key) then None else before
  {
    if updates != [] {
      DocRunSums(before, updates[..|updates| - 1], key, load);
      AsksStep(updates, Delete, key);
      AsksStep(updates, Update, key);
      AsksStep(updates, Purge, key);
    }
  }

  // ---------------------------------------------------------------- what is left in the end

  /** What a request does to one document in the end. */
  datatype Left = LeftAlone | Removed | Saved(item: UpdateItem, afterPurge: bool)

  /** The last update of the document, under any spelling, and whether a purge comes before it. */
  function LastUpdate(updates: seq<UpdateItem>, target: DocKey): Option<(UpdateItem, bool)> {
    if updates == [] then None
    else
      var u, most := updates[|updates| - 1], updates[..|updates| - 1];
      if u.kind.Update? && Target(u) == target then Some((u, Asks(most, Purge, target)))
      else LastUpdate(most, target)
  }

  function LeftBehind(updates: seq<UpdateItem>, target: DocKey): Left {
    if Asks(updates, Delete, target) then Removed
    else
      match LastUpdate(updates, target)
      case Some((u, afterPurge)) => Saved(u, afterPurge)
      case None => if Asks(updates, Purge, target) then Removed else LeftAlone
  }

  /** What is saved is what the last update makes of the document as it then was. */
  lemma {:induction false} DocRunSaves(doc: Option<Json>, updates: seq<UpdateItem>, target: DocKey, load: BlobLoader)
    requires DocRun(doc, updates, target, load).Ok?
    ensures match LastUpdate(updates, target)
            case None => DocRun(doc, updates, target, load).value.saved == None
            case Some((u, afterPurge)) =>
              Effect(if afterPurge then None else doc, u, load) == Ok(DocRun(doc, updates, target, load).value.saved)
  {
    if updates != [] {
      DocRunSaves(doc, updates[..|updates| - 1], target, load);
      DocRunSums(doc, updates[..|updates| - 1], target, load);
    }
  }

  /** The document in the end, without following the items one by one. */
  lemma LeavesDocument(doc: Option<Json>, updates: seq<UpdateItem>, target: DocKey, load: BlobLoader)
    requires DocRun(doc, updates, target, load).Ok?
    ensures match LeftBehind(updates, target)
            case LeftAlone => Settled(DocRun(doc, updates, target, load).value) == doc
            case Removed => Settled(DocRun(doc, updates, target, load).value) == None
            case Saved(u, afterPurge) =>
              && u.kind.Update?
              && Effect(if afterPurge then None else doc, u, load) == Ok(Settled(DocRun(doc, updates, target, load).value))
  {
    DocRunSums(doc, updates, target, load);
    DocRunSaves(doc, updates, target, load);
    if LastUpdate(updates, target).Some? {
      EffectOfUpdate(updates, target, doc, load);
    }
  }

  lemma {:induction false} EffectOfUpdate(updates: seq<UpdateItem>, target: DocKey, doc: Option<Json>, load: BlobLoader)
    requires LastUpdate(updates, target).Some?
    ensures LastUpdate(updates, target).value.0.kind.Update?
  {
    if !(updates[|updates| - 1].kind.Update? && Target(updates[|updates| - 1]) == target) {
      EffectOfUpdate(updates[..|updates| - 1], target, doc, load);
    }
  }

  // ---------------------------------------------------------------- in terms of the items' fields

  /** The item is for document `id` of the collection whose name without the default scope is `c`. */
  predicate IsFor(u: UpdateItem, c: string, id: string) {
    u.documentID == id && (u.collection == "_default." + c || (u.collection == c && !("_default." <= c)))
  }

  /** Is one of the first `n` items of this kind, for the document? */
  predicate Listed(updates: seq<UpdateItem>, n: nat, kind: Kind, c: string, id: string)
    requires n <= |updates|
  {
    exists i | 0 <= i < n :: updates[i].kind == kind && IsFor(updates[i], c, id)
  }

  function Found(collections: Collections, c: string, id: string): Option<Json> {
    if c in collections && id in collections[c] then Some(collections[c][id]) else None
  }

  /** Item `i` is the last update of the document. */
  predicate LastFor(updates: seq<UpdateItem>, i: nat, c: string, id: string) {
    && i < |updates| && updates[i].kind == Update && IsFor(updates[i], c, id)
    && forall j | i < j < |updates| :: updates[j].kind == Update ==> !IsFor(updates[j], c, id)
  }

  /** What a request leaves of a document, by the fields of the items: a deleted document is gone; one
      that is updated is what its last update makes of it, or of nothing after a purge; one that is
      only purged is gone; and any other stays as it was. */
  ghost predicate LeftAsListed(before: Collections, after: Collections, updates: seq<UpdateItem>, c: string, id: string,
                               load: BlobLoader)
  {
    var was, left := Found(before, c, id), Found(after, c, id);
    if Listed(updates, |updates|, Delete, c, id) then left == None
    else if Listed(updates, |updates|, Update, c, id) then
      && left.Some?
      && forall i: nat | LastFor(updates, i, c, id) ::
           Carries(updates[i], Start(if Listed(updates, i, Purge, c, id) then None else was), left.value, load)
    else if Listed(updates, |updates|, Purge, c, id) then left == None
    else left == was
  }

  lemma ForMeansTarget(u: UpdateItem, c: string, id: string)
    ensures IsFor(u, c, id) <==> Target(u) == (c, id)
  {
    if "_default." <= u.collection {
      assert u.collection == "_default." + u.collection[9..];
      assert |u.collection[9..]| < |u.collection|;
    }
    assert ("_default." + c)[9..] == c;
  }

  lemma ListedMeansAsks(updates: seq<UpdateItem>, n: nat, kind: Kind, c: string, id: string)
    requires n <= |updates|
    ensures Listed(updates, n, kind, c, id) <==> Asks(updates[..n], kind, (c, id))
  {
    forall i | 0 <= i < n ensures IsFor(updates[i], c, id) <==> Target(updates[..n][i]) == (c, id) {
      ForMeansTarget(updates[i], c, id);
    }
  }

  lemma {:induction false} LastUpdateAt(updates: seq<UpdateItem>, i: nat, c: string, id: string)
    requires LastFor(updates, i, c, id)
    ensures LastUpdate(updates, (c, id)) == Some((updates[i], Listed(updates, i, Purge, c, id)))
    decreases |updates|
  {
    var u, most := updates[|updates| - 1], updates[..|updates| - 1];
    ForMeansTarget(u, c, id);
    if i < |most| {
      assert most[i] == updates[i];
      assert forall j | i < j < |most| :: most[j] == updates[j];
      LastUpdateAt(most, i, c, id);
      ListedMeansAsks(updates, i, Purge, c, id);
      ListedMeansAsks(most, i, Purge, c, id);
      assert most[..i] == updates[..i];
    } else {
      ListedMeansAsks(updates, i, Purge, c, id);
    }
  }

  /** A request that succeeds leaves of every document what its items say. */
  lemma RequestLeaves(before: Collections, updates: seq<UpdateItem>, c: string, id: string, load: BlobLoader)
    requires StageAll(Stage(before, map[]), updates, load).Ok?
    ensures LeftAsListed(before, Commit(StageAll(Stage(before, map[]), updates, load).value), updates, c, id, load)
  {
    var key, was := (c, id), Found(before, c, id);
    RequestEffect(before, updates, load, key);
    LeavesDocument(was, updates, key, load);
    DocRunSums(was, updates, key, load);
    assert updates[..|updates|] == updates;
    ListedMeansAsks(updates, |updates|, Delete, c, id);
    ListedMeansAsks(updates, |updates|, Update, c, id);
    ListedMeansAsks(updates, |updates|, Purge, c, id);
    forall i: nat | LastFor(updates, i, c, id) && !Asks(updates, Delete, key)
      ensures Carries(updates[i], Start(if Listed(updates, i, Purge, c, id) then None else was),
                      Settled(DocRun(was, updates, key, load).value).value, load)
    {
      LastUpdateAt(updates, i, c, id);
      EffectCarries(if Listed(updates, i, Purge, c, id) then None else was, updates[i], load);
    }
  }

  // ---------------------------------------------------------------- when a request fails

  /** Item `i` throws: it names an unknown collection, or is an update that throws on the document as
      the purges before it have left it. */
  predicate ItemThrows(before: Collections, updates: seq<UpdateItem>, i: nat, load: BlobLoader)
    requires i < |updates|
  {
    var (c, id) := Target(updates[i]);
    || c !in before
    || (updates[i].kind.Update?
        && Effect(if Listed(updates, i, Purge, c, id) then None else Found(before, c, id), updates[i], load).Err?)
  }

  lemma StageOneThrows(before: Collections, updates: seq<UpdateItem>, i: nat, load: BlobLoader)
    requires i < |updates| && StageAll(Stage(before, map[]), updates[..i], load).Ok?
    ensures StageOne(StageAll(Stage(before, map[]), updates[..i], load).value, updates[i], load).Err?
            <==> ItemThrows(before, updates, i, load)
  {
    var (c, id) := Target(updates[i]);
    StagingOnlyPurges(before, updates[..i], load);
    ListedMeansAsks(updates, i, Purge, c, id);
    assert Lookup(before, (c, id)) == Found(before, c, id);
  }

  /** A request is staged as far as no item throws. */
  lemma {:induction false} StagedUntil(before: Collections, updates: seq<UpdateItem>, n: nat, load: BlobLoader)
    requires n <= |updates|
    ensures StageAll(Stage(before, map[]), updates[..n], load).Ok?
            <==> forall i | 0 <= i < n :: !ItemThrows(before, updates, i, load)
  {
    if n > 0 {
      StagedUntil(before, updates, n - 1, load);
      StagedStep(before, updates, n - 1, load);
    }
  }

  lemma StagedStep(before: Collections, updates: seq<UpdateItem>, i: nat, load: BlobLoader)
    requires i < |updates|
    ensures StageAll(Stage(before, map[]), updates[..i + 1], load).Ok?
            <==> StageAll(Stage(before, map[]), updates[..i], load).Ok? && !ItemThrows(before, updates, i, load)
  {
    assert updates[..i + 1][..i] == updates[..i];
    if StageAll(Stage(before, map[]), updates[..i], load).Ok? {
      StageOneThrows(before, updates, i, load);
    }
  }

  /** No document is named twice, under any spelling. */
  ghost predicate OncePerDocument(updates: seq<UpdateItem>) {
    forall i, j | 0 <= i < j < |updates| :: Target(updates[i]) != Target(updates[j])
  }
}

/** Loading a dataset into Sync Gateway: consecutive documents of one keyspace are posted together. */
module Dataset {
  datatype Doc = Doc(scope: string, collection: string, body: string)

  datatype Keyspace = Keyspace(scope: string, collection: string)

  /** A bulk insert of documents into a keyspace. */
  datatype Post = Post(keyspace: Keyspace, docs: seq<Doc>)

  function KeyspaceOf(d: Doc): Keyspace { Keyspace(d.scope, d.collection) }

  /** The size at which a batch is posted even though the keyspace goes on. */
  const FULL := 501

  predicate Named(k: Keyspace) { k.scope != "" && k.collection != "" }

  function Contents(posts: seq<Post>): seq<Doc> {
    if posts == [] then [] else Contents(posts[..|posts| - 1]) + posts[|posts| - 1].docs
  }

  lemma ContentsAppend(posts: seq<Post>, p: Post)
    ensures Contents(posts + [p]) == Contents(posts) + p.docs
  {
    assert (posts + [p])[..|posts|] == posts;
  }

  /** All documents of the batch belong to the keyspace it is for. */
  predicate Pure(docs: seq<Doc>, k: Keyspace) {
    forall i | 0 <= i < |docs| :: docs[i].scope == k.scope && docs[i].collection == k.collection
  }

  predicate AllPure(posts: seq<Post>) {
    forall i | 0 <= i < |posts| :: Pure(posts[i].docs, posts[i].keyspace)
  }

  /** No batch is longer than it may be, and none is cut short of that without a reason. */
  predicate WellCut(posts: seq<Post>) {
    && (forall i | 0 <= i < |posts| :: |posts[i].docs| <= FULL)
    && (forall i | 0 <= i < |posts| - 1 :: posts[i].keyspace == posts[i + 1].keyspace ==> |posts[i].docs| == FULL)
  }

  /** The last post and the batch being gathered follow each other properly. */
  predicate CutBefore(posts: seq<Post>, k: Keyspace) {
    posts != [] && posts[|posts| - 1].keyspace == k ==> |posts[|posts| - 1].docs| == FULL
  }

  /** A document without a scope or collection name is followed only by its like. */
  predicate NoBlankSwitch(docs: seq<Doc>) {
    forall i | 0 <= i < |docs| - 1 ::
      || (docs[i].scope != "" && docs[i].collection != "")
      || (docs[i].scope == docs[i + 1].scope && docs[i].collection == docs[i + 1].collection)
  }

  predicate AllNamed(docs: seq<Doc>) {
    forall i | 0 <= i < |docs| :: docs[i].scope != "" && docs[i].collection != ""
  }

  lemma SwitchStep(docs: seq<Doc>, doc: Doc)
    ensures NoBlankSwitch(docs + [doc])
            <==> NoBlankSwitch(docs)
                 && (docs != [] ==> Named(KeyspaceOf(docs[|docs| - 1])) || KeyspaceOf(docs[|docs| - 1]) == KeyspaceOf(doc))
  {
    var now := docs + [doc];
    assert forall j | 0 <= j < |docs| :: docs[j] == now[j];
    if NoBlankSwitch(now) && docs != [] {
      assert now[|docs| - 1] == docs[|docs| - 1] && now[|docs| - 1 + 1] == doc;
    }
  }

  lemma PostStep(posts: seq<Post>, p: Post, next: Keyspace)
    ensures AllPure(posts + [p]) <==> AllPure(posts) && Pure(p.docs, p.keyspace)
    ensures WellCut(posts) && |p.docs| <= FULL && CutBefore(posts, p.keyspace) ==> WellCut(posts + [p])
    ensures p.keyspace != next || |p.docs| == FULL ==> CutBefore(posts + [p], next)
  {
    var all := posts + [p];
    if AllPure(all) {
      assert all[|posts|] == p;
      assert forall i | 0 <= i < |posts| :: all[i] == posts[i];
    }
  }

  lemma GatherStep(collected: seq<Doc>, last: Keyspace, doc: Doc)
    requires collected != [] ==> KeyspaceOf(collected[|collected| - 1]) == last
    ensures Pure(collected + [doc], KeyspaceOf(doc))
            <==> collected == [] || (Pure(collected, last) && last == KeyspaceOf(doc))
  {
    var all := collected + [doc];
    if Pure(all, KeyspaceOf(doc)) && collected != [] {
      assert forall i | 0 <= i < |collected| :: all[i] == collected[i];
      assert all[|collected| - 1] == collected[|collected| - 1];
    }
  }

  // Where the loop stands after the documents `docs`: the posts made, the batch being gathered, and
  // the keyspace of the document before.

  /** The documents are in the posts and the batch, in order, and no post is empty. */
  ghost predicate Ordered(docs: seq<Doc>, posts: seq<Post>, collected: seq<Doc>) {
    Contents(posts) + collected == docs && forall j | 0 <= j < |posts| :: posts[j].docs != []
  }

  /** The batch holds the last document, whose keyspace is the last one seen. */
  ghost predicate Current(docs: seq<Doc>, collected: seq<Doc>, last: Keyspace) {
    && (collected == [] <==> docs == [])
    && (docs != [] ==> last == KeyspaceOf(docs[|docs| - 1]) == KeyspaceOf(collected[|collected| - 1]))
  }

  ghost predicate Purity(docs: seq<Doc>, posts: seq<Post>, collected: seq<Doc>, last: Keyspace) {
    AllPure(posts) && Pure(collected, last) <==> NoBlankSwitch(docs)
  }

  ghost predicate Cuts(docs: seq<Doc>, posts: seq<Post>, collected: seq<Doc>, last: Keyspace) {
    AllNamed(docs) ==>
      && WellCut(posts) && |collected| <= FULL
      && (docs != [] ==> Named(last) && CutBefore(posts, last))
  }

  ghost predicate Loaded(docs: seq<Doc>, posts: seq<Post>, collected: seq<Doc>, last: Keyspace) {
    && Ordered(docs, posts, collected) && Current(docs, collected, last)
    && Purity(docs, posts, collected, last) && Cuts(docs, posts, collected, last)
  }

  lemma AllNamedPrefix(docs: seq<Doc>, doc: Doc)
    ensures AllNamed(docs + [doc]) <==> AllNamed(docs) && Named(KeyspaceOf(doc))
  {
    var now := docs + [doc];
    assert forall j | 0 <= j < |docs| :: docs[j] == now[j];
    assert now[|docs|] == doc;
  }

  /** When the batch is posted before the document is added. */
  predicate MustPost(collected: seq<Doc>, last: Keyspace, doc: Doc) {
    (last != KeyspaceOf(doc) || |collected| > 500) && last.scope != "" && last.collection != "" && collected != []
  }

  lemma JoinedOrdered(docs: seq<Doc>, posts: seq<Post>, collected: seq<Doc>, doc: Doc)
    requires Ordered(docs, posts, collected)
    ensures Ordered(docs + [doc], posts, collected + [doc])
  {
    assert Contents(posts) + (collected + [doc]) == docs + [doc];
  }

  lemma JoinedPurity(docs: seq<Doc>, posts: seq<Post>, collected: seq<Doc>, last: Keyspace, doc: Doc)
    requires Current(docs, collected, last) && Purity(docs, posts, collected, last) && !MustPost(collected, last, doc)
    ensures Purity(docs + [doc], posts, collected + [doc], KeyspaceOf(doc))
  {
    SwitchStep(docs, doc);
    GatherStep(collected, last, doc);
  }

  lemma JoinedCuts(docs: seq<Doc>, posts: seq<Post>, collected: seq<Doc>, last: Keyspace, doc: Doc)
    requires Ordered(docs, posts, collected) && Current(docs, collected, last)
    requires Cuts(docs, posts, collected, last) && !MustPost(collected, last, doc)
    ensures Cuts(docs + [doc], posts, collected + [doc], KeyspaceOf(doc))
  {
    AllNamedPrefix(docs, doc);
    if docs == [] {
      NothingPosted(docs, posts, collected);
    }
  }

  lemma NothingPosted(docs: seq<Doc>, posts: seq<Post>, collected: seq<Doc>)
    requires Ordered(docs, posts, collected) && docs == []
    ensures posts == []
  {
    assert posts != [] ==> Contents(posts) != [];
  }

  /** The document joins the batch. */
  lemma Joined(docs: seq<Doc>, posts: seq<Post>, collected: seq<Doc>, last: Keyspace, doc: Doc)
    requires Loaded(docs, posts, collected, last) && !MustPost(collected, last, doc)
    ensures Loaded(docs + [doc], posts, collected + [doc], KeyspaceOf(doc))
  {
    JoinedOrdered(docs, posts, collected, doc);
    JoinedPurity(docs, posts, collected, last, doc);
    JoinedCuts(docs, posts, collected, last, doc);
  }

  lemma CutOrdered(docs: seq<Doc>, posts: seq<Post>, collected: seq<Doc>, last: Keyspace, doc: Doc)
    requires Ordered(docs, posts, collected) && collected != []
    ensures Ordered(docs + [doc], posts + [Post(last, collected)], [doc])
  {
    ContentsAppend(posts, Post(last, collected));
  }

  lemma CutPurity(docs: seq<Doc>, posts: seq<Post>, collected: seq<Doc>, last: Keyspace, doc: Doc)
    requires Current(docs, collected, last) && Purity(docs, posts, collected, last) && MustPost(collected, last, doc)
    ensures Purity(docs + [doc], posts + [Post(last, collected)], [doc], KeyspaceOf(doc))
  {
    SwitchStep(docs, doc);
    PostStep(posts, Post(last, collected), KeyspaceOf(doc));
  }

  lemma CutCuts(docs: seq<Doc>, posts: seq<Post>, collected: seq<Doc>, last: Keyspace, doc: Doc)
    requires Current(docs, collected, last) && Cuts(docs, posts, collected, last) && MustPost(collected, last, doc)
    ensures Cuts(docs + [doc], posts + [Post(last, collected)], [doc], KeyspaceOf(doc))
  {
    AllNamedPrefix(docs, doc);
    PostStep(posts, Post(last, collected), KeyspaceOf(doc));
  }

  /** The batch is posted and the document starts the next one. */
  lemma Cut(docs: seq<Doc>, posts: seq<Post>, collected: seq<Doc>, last: Keyspace, doc: Doc)
    requires Loaded(docs, posts, collected, last) && MustPost(collected, last, doc)
    ensures Loaded(docs + [doc], posts + [Post(last, collected)], [doc], KeyspaceOf(doc))
  {
    CutOrdered(docs, posts, collected, last, doc);
    CutPurity(docs, posts, collected, last, doc);
    CutCuts(docs, posts, collected, last, doc);
  }

  /** The posts of a whole dataset. */
  ghost predicate Partitions(docs: seq<Doc>, posts: seq<Post>) {
    && Contents(posts) == docs
    && (forall i | 0 <= i < |posts| :: posts[i].docs != [])
    && (AllPure(posts) <==> NoBlankSwitch(docs))
    && (AllNamed(docs) ==> WellCut(posts))
  }

  lemma {:induction false} PostedIsThere(posts: seq<Post>, i: nat, d: Doc)
    requires i < |posts| && d in posts[i].docs
    ensures d in Contents(posts)
    decreases |posts|
  {
    if i < |posts| - 1 {
      PostedIsThere(posts[..|posts| - 1], i, d);
    }
  }

  /** The documents of a single keyspace go out in posts of 501, the last of which may be smaller. */
  lemma OneKeyspace(docs: seq<Doc>, posts: seq<Post>, k: Keyspace)
    requires Partitions(docs, posts) && Named(k)
    requires forall i | 0 <= i < |docs| :: docs[i].scope == k.scope && docs[i].collection == k.collection
    ensures forall i | 0 <= i < |posts| :: posts[i].keyspace == k && 1 <= |posts[i].docs| <= 501
    ensures forall i | 0 <= i < |posts| - 1 :: |posts[i].docs| == 501
  {
    assert AllPure(posts);
    forall i | 0 <= i < |posts| ensures posts[i].keyspace == k {
      assert Pure(posts[i].docs, posts[i].keyspace);
      PostedIsThere(posts, i, posts[i].docs[0]);
    }
    forall i | 0 <= i < |posts| - 1 ensures |posts[i].docs| == 501 {
      assert posts[i].keyspace == posts[i + 1].keyspace;
    }
  }

  /** The last batch is posted. */
  lemma Finished(docs: seq<Doc>, posts: seq<Post>, collected: seq<Doc>, last: Keyspace)
    requires Loaded(docs, posts, collected, last)
    ensures Partitions(docs, if collected != [] then posts + [Post(last, collected)] else posts)
  {
    if collected == [] {
      assert Contents(posts) + [] == Contents(posts);
    } else {
      PostStep(posts, Post(last, collected), last);
      ContentsAppend(posts, Post(last, collected));
    }
  }

  lemma TakeOneMore(docs: seq<Doc>, i: nat)
    requires i < |docs|
    ensures docs[..i + 1] == docs[..i] + [docs[i]]
  {
  }

  /** The posts for a dataset, each of which succeeds. They hold the documents in order, always.
      Each is for the keyspace of its documents exactly when there is no switch away from a blank
      name; with all names given, batches are as long as they may be. */
  method LoadDataset(docs: seq<Doc>) returns (posts: seq<Post>)
    ensures Partitions(docs, posts)
  {
    posts := [];
    var last := Keyspace("", "");
    var collected: seq<Doc> := [];
    ghost var done: seq<Doc> := [];
    for i := 0 to |docs|
      invariant done == docs[..i]
      invariant Loaded(done, posts, collected, last)
    {
      var doc := docs[i];
      if MustPost(collected, last, doc) {
        Cut(done, posts, collected, last, doc);
        posts := posts + [Post(last, collected)];
        collected := [];
        assert collected + [doc] == [doc];
      } else {
        Joined(done, posts, collected, last, doc);
      }
      last := KeyspaceOf(doc);
      collected := collected + [doc];
      TakeOneMore(docs, i);
      done := done + [doc];
    }
    Finished(docs, posts, collected, last);
    if collected != [] {
      posts := posts + [Post(last, collected)];
    }
  }
}

/** How collections are named in requests and in what a server sends. */
module CollectionNames {

  /** The collection that a request means: the default scope need not be named. */
  function NormalizeCollectionID(id: string): string {
    if "_default." <= id then id[9..] else id
  }

  /** How the server spells a collection in what it sends: always with a scope. */
  function CollectionIDWithScope(id: string): string {
    if '.' in id then id else "_default." + id
  }

  /** Spelling out the scope names the same collection, and leaves nothing more to spell out. */
  lemma ScopeSpelledOut(id: string)
    ensures '.' in CollectionIDWithScope(id)
    ensures NormalizeCollectionID(CollectionIDWithScope(id)) == NormalizeCollectionID(id)
    ensures CollectionIDWithScope(CollectionIDWithScope(id)) == CollectionIDWithScope(id)
    ensures NormalizeCollectionID(CollectionIDWithScope(id)) == id <==> !("_default." <= id)
  {
    var spelled := "_default." + id;
    assert spelled[8] == '.' && spelled[9..] == id;
    assert "_default." <= id ==> id[8] == '.' && |id[9..]| < |id|;
  }

  /** Two spellings mean the same collection exactly when they are equal, or one is the other with the
      default scope before it. */
  lemma SameCollection(a: string, b: string)
    ensures NormalizeCollectionID(a) == NormalizeCollectionID(b)
            <==> || a == b
                 || (a == "_default." + b && !("_default." <= b))
                 || (b == "_default." + a && !("_default." <= a))
  {
    assert ("_default." + a)[9..] == a && ("_default." + b)[9..] == b;
    assert "_default." <= a ==> a == "_default." + a[9..] && |a[9..]| < |a|;
    assert "_default." <= b ==> b == "_default." + b[9..] && |b[9..]| < |b|;
  }
}

/** The library's database, as far as the test server uses it: collections of documents by ID.
    A batch update is taken to be exact: it saves and deletes just what it is given. */
module Databases {
  import opened Wrappers
  import opened Json
  import opened Updates

  type Collections = map<string, map<string, Json>>

  /** The document with the given normalised key, if there is one. */
  function Lookup(collections: Collections, key: DocKey): Option<Json> {
    if key.0 in collections && key.1 in collections[key.0] then Some(collections[key.0][key.1]) else None
  }

  datatype CollectionUpdates = CollectionUpdates(save: seq<(string, Json)>, delete: seq<string>)

  const NO_UPDATES := CollectionUpdates([], [])

  /** The documents of a collection after saving those listed, the last one of an ID staying. */
  function SaveAll(docs: map<string, Json>, save: seq<(string, Json)>): map<string, Json> {
    if save == [] then docs
    else SaveAll(docs, save[..|save| - 1])[save[|save| - 1].0 := save[|save| - 1].1]
  }

  function Committed(docs: map<string, Json>, updates: CollectionUpdates): map<string, Json> {
    SaveAll(docs, updates.save) - (set id | id in updates.delete)
  }

  /** A batch leaves the documents that were there or are saved, without those deleted. */
  lemma {:induction false} CommittedIDs(docs: map<string, Json>, updates: CollectionUpdates, id: string)
    ensures id in Committed(docs, updates)
            <==> id !in updates.delete && (id in docs || exists i | 0 <= i < |updates.save| :: updates.save[i].0 == id)
    decreases |updates.save|
  {
    if updates.save != [] {
      var most := updates.save[..|updates.save| - 1];
      CommittedIDs(docs, updates.(save := most), id);
      assert forall i | 0 <= i < |most| :: most[i] == updates.save[i];
    }
  }

  /** A document that is saved, and not deleted, is as it was saved last. */
  lemma {:induction false} LastSaveStays(docs: map<string, Json>, updates: CollectionUpdates, i: nat)
    requires i < |updates.save| && updates.save[i].0 !in updates.delete
    requires forall j | i < j < |updates.save| :: updates.save[j].0 != updates.save[i].0
    ensures updates.save[i].0 in Committed(docs, updates)
    ensures Committed(docs, updates)[updates.save[i].0] == updates.save[i].1
    decreases |updates.save|
  {
    var most := updates.save[..|updates.save| - 1];
    if i < |most| {
      assert forall j | 0 <= j < |most| :: most[j] == updates.save[j];
      LastSaveStays(docs, updates.(save := most), i);
    }
  }

  class Database {
    var collections: Collections

    constructor (collections: Collections)
      ensures this.collections == collections
    {
      this.collections := collections;
    }

    /** A copy of the document; the collection name is already normalised. */
    function GetDocument(collection: string, id: string): Option<Json>
      requires collection in collections
      reads this
    {
      Lookup(collections, (collection, id))
    }

    method PurgeDocument(collection: string, id: string)
      requires collection in collections
      modifies this
      ensures collections == old(collections)[collection := old(collections)[collection] - {id}]
    {
      collections := collections[collection := collections[collection] - {id}];
    }

    method UpdateMultiple(collection: string, updates: CollectionUpdates)
      requires collection in collections
      modifies this
      ensures collections == old(collections)[collection := Committed(old(collections)[collection], updates)]
    {
      collections := collections[collection := Committed(collections[collection], updates)];
    }
  }
}

# Verified model of the Couchbase Lite test kit's core logic

A Dafny 4.11 model of the parts of the couchbase-lite-tests repository that carry real logic: the
key-path document editor, snapshots and database updates of the JavaScript test server, the delivery
of replication events and the client's waits for them, the pairing of WebSocket requests and
responses, the topology marker checker with the runtime check it serves, the two dictionary-merge
conflict resolvers, the dataset loader and the client's structural JSON comparison.

`dafny verify dfyconfig.toml` checks the whole project.

## How the model is laid out

| file | what it models |
|---|---|
| `Json.dfy` | documents: JSON trees that may hold blobs |
| `CollectionNames.dfy` | how collections are spelled |
| `KeyPathSyntax.dfy` | the text form of key paths: scanner and printer |
| `KeyPathAccess.dfy` | reading, setting and deleting at a key path; the `KeyPath` class and its cache |
| `Comparison.dfy` | comparing an expected and an actual document |
| `Updates.dfy` | update items and what one does to one document |
| `Databases.dfy` | the library's database, as the server uses it |
| `Snapshots.dfy` | `DocumentMap` and `Snapshot` |
| `DatabaseUpdates.dfy` | the UpdateDatabase command |
| `RoundTrip.dfy` | snapshot, update and verify in a row |
| `TestCases.dfy` | the repository's own cases for key paths and snapshots |
| `EventDelivery.dfy` | document events from the listener to the client's cache |
| `EventWaiting.dfy` | the three waits for document events |
| `Correlation.dfy` | the WebSocket router and the whole request/response system in steps |
| `UsageScan.dfy`, `MarkerCheck.dfy` | the topology marker checker |
| `Clusters.dfy`, `RuntimeCheck.dfy` | cluster building, the runtime check, and what both checks guarantee together |
| `Resolvers.dfy`, `Dataset.dfy`, `JsonEquivalence.dfy` | merge-dict resolvers, dataset batches, `json_equivalent` |

Documents are values (trees), so the in-place edits of `write` appear as follows. The `Document`
class holds the tree; the cursor `cur` of the loop is the position `components[..i]` in it, and an
assignment through the cursor replaces the value at that position (`PutAt`). The method
`KeyPath.WriteValue` is proved equal to the function `Write`, and the laws are proved about `Write`.
Functions that methods are proved against are in turn described without them: what an update does by
the fields of the item (`Carries`), when documents agree by their trees (`SameJson`), when an event is
the one waited for by the fields of both (`Fulfils`).
Where the source iterates over the keys of an object or a map, the model picks keys in any order, so
what is proved holds for every order; the document comparison takes the keys to visit first as an
argument, so that it can also be said what happens under some order. A Python set of wait entries is a set whose members are
pairwise unequal under `__eq__`; that every such set is one is itself proved (`SetsAreProper`).

The property, removal and blob loops are the same in `Snapshot.#applyUpdate` and in the UpdateDatabase
command; they are one method here (`Updates.ApplyUpdate`). Everything around them is separate: one side
collapses changes, patches recorded documents and compares, the other stages batches and commits them.

## Where the code departs from what its documentation or comments say

The model follows the code. Each of these is stated by a lemma or a contract.

- The scanner's regular expression is not anchored, so `$xx.a.b` is accepted and yields `a` twice
  (`JunkIsAccepted`, and `SkippedText` for any text skipped); on strings of the grammar it reads what the
  grammar says (`GrammarIsRespected`).
- `write` promises to grow an array whenever an index is out of bounds. Before the last component it
  fails instead when the index equals the length, so `foo[0].x` cannot be written into an empty object
  (`NewArrayBlocks`; `WriteSucceeds` says exactly when a write succeeds).
- Deleting something absent can change the document: containers are created on the way, and arrays
  padded (`DeleteAbsent` says exactly when nothing changes). Deleting at a negative index removes an
  element counted from the end, although reading there finds nothing (`DeleteNegative`).
- A document recorded under two spellings of its collection makes verification fail after an update
  (`TwoSpellingsFail`; `SnapshotUpdateVerify` says exactly when it passes). A list that names a document
  repeatedly can fail too, as verification takes the last item and the update command batches all of them
  (`RepeatedItems` says exactly when it passes; `MixedItems` does so for every list).
- Comparing an expected object with an actual null throws instead of reporting a mismatch: expecting
  `{"a": {}}` where there is `{"a": null}` (`NullForObjectThrows`, and `NullForObjectCrashes` for a whole
  verification). A comparison throws under some order of keys exactly when `MayThrow` holds of the trees
  (`OutcomeDecided`, `OrderDecides`), under every order when they differ and `MayReport` does not hold. All orders are meant: that JavaScript
  visits integer-like keys first, in ascending order, is not used.
- The wait for any document event leaves errors out of the comparison (`AnyMatchIgnoresErrors`).
- A handler result that carries a `ts_id` of its own sends the response to another request
  (`ResponseEchoes` says exactly when the number is echoed, `StrayResultCompletes` what happens when it is
  another pending one, and `StrayNumberMisroutes` is a run).
- `min_sync_gateways` and `min_couchbase_servers` count what all clusters have, while a test indexes the
  list of one (`MarkerCountsAllClusters`). So a test that the marker check accepts and the runtime check lets
  run can still use an index that is out of range (`TwoClustersOfOneGateway`); `AcceptedIsSafeIff` says
  exactly when it cannot, given the number of clusters.
- A cluster may do without servers if its one gateway uses Rosmar, but not before a cluster with servers:
  the indexes of servers must start at 0 (`RosmarFirstRefused`; `ArrangementAccepted` says exactly when an
  arrangement is accepted).
- `spec/api/conflict-resolvers.md` lets merge-dict merge equal values under a common key and asks for a
  dictionary with an `error` entry otherwise. The JavaScript server refuses every common key
  (`SharedKeyRefused`); the C server sets a plain text instead of that dictionary (`ResolveC`).
- `json_equivalent` takes `true` for `1` (`TrueIsOne`, `BothWaysIsEqual`).
- The dataset loader mixes keyspaces after a document with an empty scope or collection (`LoadDataset`).

## Model

| member | source | states |
|---|---|---|
| Json.DocToJsonIsPlain | servers/javascript/src/utils.ts:49-52 | the JSON form of a document has no blobs, and is the document itself exactly when that had none |
| Json.BlobForm | servers/javascript/src/utils.ts:49-52 | a blob has the form of the object of its metadata |
| Json.SameForms | servers/javascript/src/utils.ts:49-52 | the JSON forms of two documents are equal exactly when they look the same: equal scalars, arrays element by element, objects key by key, and a blob as the object of its metadata |
| CollectionNames.ScopeSpelledOut | servers/javascript/src/tdk.ts:528-531 | what the server sends always names a scope, and means the same collection; stripping the default scope gives the name back exactly if it did not begin with it |
| CollectionNames.SameCollection | servers/javascript/src/utils.ts:33-36 | two spellings mean one collection exactly when they are equal or one is the other with the default scope before it |
| KeyPathSyntax.ParseComponents | servers/javascript/src/keyPath.ts:21-49 | the constructor's text and components are those of the recursive definition of the scanner, None where it throws |
| KeyPathSyntax.ScanComponents | servers/javascript/src/keyPath.ts:32-46 | the cursor loop reads the same components as the recursive scanner; the cursor always advances and ends exactly at the end of the text |
| KeyPathSyntax.PrintThenParse | servers/javascript/src/keyPath.ts:21-63 | print then parse is the identity on exactly the non-empty lists of non-empty keys without "." and "[" and safe integers whose final key does not end in a blank |
| KeyPathSyntax.ParseThenPrint | servers/javascript/src/keyPath.ts:21-63 | whatever string is accepted, printing its components gives a spelling that parses to the same components |
| KeyPathSyntax.AcceptedIsPrintable | servers/javascript/src/keyPath.ts:26-46 | every accepted string but the root path yields a printable component list |
| KeyPathSyntax.GrammarIsRespected | servers/javascript/src/keyPath.ts:33-46 | on strings of the grammar the unanchored scanner agrees with the anchored one |
| KeyPathSyntax.SkippedText | servers/javascript/src/keyPath.ts:34-45 | whatever text is skipped before a match, as many characters as were skipped are then read again |
| KeyPathSyntax.JunkIsAccepted | servers/javascript/src/keyPath.ts:34-45 | a string outside the grammar is accepted, with a key read twice |
| KeyPathSyntax.BlanksAround | servers/javascript/src/keyPath.ts:26 | blanks around a path make no difference |
| KeyPathSyntax.Blanks | servers/javascript/src/keyPath.ts:26 | the blanks, one by one |
| KeyPathSyntax.ShortSpelling | servers/javascript/src/keyPath.ts:26-30 | a path that begins with neither "$" nor "[" reads as with "$." before it, one that begins with "[" as with "$" before it; the empty one is refused |
| KeyPathSyntax.RootAlone | servers/javascript/src/keyPath.ts:27-37 | the root alone is the empty component list, and a dot alone is refused |
| KeyPathSyntax.SafeIndexes | servers/javascript/src/keyPath.ts:40-44 | an index is accepted exactly if it lies between -9007199254740991 and 9007199254740991 |
| KeyPathAccess.WriteThenRead | servers/javascript/src/keyPath.ts:65-130 | after a successful write of a defined value, reading the path gives that value |
| KeyPathAccess.WriteFrame | servers/javascript/src/keyPath.ts:65-130 | what was defined at an incomparable path reads the same afterwards, even when the write returned false |
| KeyPathAccess.WriteSucceeds | servers/javascript/src/keyPath.ts:79-130 | a write or delete succeeds exactly when every container it meets, present or newly made, is an object for a key and an array for an index, which before the last component is neither negative nor equal to the length |
| KeyPathAccess.ReadStep | servers/javascript/src/keyPath.ts:65-76 | what a path one longer reads, from what the shorter one reads: a key of an object, or an element in range, else undefined |
| KeyPathAccess.WriteKey | servers/javascript/src/keyPath.ts:98-104 | a key of an object that is there is set or deleted, and nothing else changes |
| KeyPathAccess.WriteElement | servers/javascript/src/keyPath.ts:115-121 | a non-negative index of an array that is there is set, after padding with nulls as far as needed; this always succeeds |
| KeyPathAccess.DeletePast | servers/javascript/src/keyPath.ts:116-122 | deleting past the end pads the array up to the index |
| KeyPathAccess.WrongType | servers/javascript/src/keyPath.ts:96-98 | a container of the wrong type on the way stops the write, and the document stays as it was |
| KeyPathAccess.WriteThroughMissingKey | servers/javascript/src/keyPath.ts:105-108 | a missing key before the last component gets an empty object or array, as the next component asks, in which the write goes on |
| KeyPathAccess.WriteThroughElement | servers/javascript/src/keyPath.ts:113-125 | an index beyond the length before the last component pads the array and appends an empty container, in which the write goes on |
| KeyPathAccess.WriteNowhere | servers/javascript/src/keyPath.ts:92-130 | an index equal to the length, or negative, before the last component stops the write |
| KeyPathAccess.WriteNegative | servers/javascript/src/keyPath.ts:119-120 | setting a negative index leaves the elements as they are |
| KeyPathAccess.AbsentKeyFrame | servers/javascript/src/keyPath.ts:88-130 | a key absent from an object stays absent through a successful write at an incomparable path |
| KeyPathAccess.NewArrayBlocks | servers/javascript/src/keyPath.ts:106-115 | no write goes through index 0 of an array that it would itself create |
| KeyPathAccess.WritesCommute | servers/javascript/src/keyPath.ts:88-130 | writes at incomparable paths commute whenever both succeed in both orders, through key creation, container creation and null padding |
| KeyPathAccess.DeleteKey | servers/javascript/src/keyPath.ts:99-103 | a successful delete of a key leaves its path undefined |
| KeyPathAccess.DeleteFrame | servers/javascript/src/keyPath.ts:88-130 | what was defined at an incomparable path reads the same after a delete of a key, successful or not |
| KeyPathAccess.DeleteIndex | servers/javascript/src/keyPath.ts:113-122 | deleting an element keeps those before it, moves those after it down by one, and changes nothing outside the array |
| KeyPathAccess.WriteThenDelete | servers/javascript/src/keyPath.ts:88-130 | setting a missing key, or the slot just past the end, of an existing container and deleting it again restores the document |
| KeyPathAccess.DeleteAbsent | servers/javascript/src/keyPath.ts:88-130 | a successful delete of an absent slot leaves the document alone exactly when its container exists and the slot is a key, or just past the end, or at a negative index of an empty array |
| KeyPathAccess.DeleteAbsentPads | servers/javascript/src/keyPath.ts:106-122 | a delete that creates a container and pads it |
| KeyPathAccess.DeleteNegative | servers/javascript/src/keyPath.ts:116-122 | at a negative index nothing is read, yet a delete removes an element counted from the end |
| KeyPathAccess.KeyPath.Create | servers/javascript/src/keyPath.ts:21-53 | a key path exists exactly when its string parses, and holds that string's components |
| KeyPathAccess.KeyPath.ReadValue | servers/javascript/src/keyPath.ts:65-77 | the loop reads the value at the path, undefined as soon as a step finds nothing |
| KeyPathAccess.KeyPath.WriteValue | servers/javascript/src/keyPath.ts:79-130 | the in-place loop gives exactly the result and the document that `Write` specifies |
| KeyPathAccess.KeyPathCache.Lookup | servers/javascript/src/keyPath.ts:144-165 | the cached path for a string is the same whether or not it was asked for before; strings that do not parse are never cached |
| Comparison.DocComparison.Compare | servers/javascript/src/snapshot.ts:128-180 | reports no mismatch exactly when the trees are equal, and then leaves path and response as they were; a mismatch comes with a path that the comparison reaches, at which the reported values differ and are not compared any deeper; a throw with a path to null where an object is expected; and wherever it can end, it does under some order of keys |
| Comparison.DocComparison.CompareArrays | servers/javascript/src/snapshot.ts:146-157 | the same for two arrays, compared in order up to the longer length, so that only the first difference counts |
| Comparison.DocComparison.CompareObjects | servers/javascript/src/snapshot.ts:158-179 | the same for two objects, the key-count shortcut included, whatever the key order |
| Comparison.DocComparison.CompareKeys | servers/javascript/src/snapshot.ts:164-177 | one key loop: no failure exactly when all those keys have equal values; else a failure below one of those keys |
| Comparison.CompareDocs | servers/javascript/src/snapshot.ts:119-205 | no response exactly when both documents are absent or look the same, blobs by their metadata; else the response for the absent one, or one that names where the comparison ended, or a throw |
| Comparison.DifferenceShows | servers/javascript/src/snapshot.ts:128-180 | two trees differ exactly when a comparison may report or may throw |
| Comparison.OutcomeDecided | servers/javascript/src/snapshot.ts:128-180 | a throw needs trees that may throw and a report trees that may be reported; so trees that differ always throw when nothing in them may be reported, and never when nothing may throw |
| Comparison.OrderDecides | servers/javascript/src/snapshot.ts:163-177 | wherever a comparison can throw or report, it does so when the keys on the way are visited first |
| Comparison.ReportPosition | servers/javascript/src/snapshot.ts:139-177 | trees that may be reported have a position at which a comparison can report |
| Comparison.ThrowPosition | servers/javascript/src/snapshot.ts:158-163 | trees that may throw have a position at which a comparison can throw |
| Comparison.NullForObjectThrows | servers/javascript/src/snapshot.ts:158-163 | an object expected under a key where null is found: the trees differ, may throw and may not be reported |
| Comparison.ReportedPathReads | servers/javascript/src/snapshot.ts:129-137 | the reported path text, with "$" in front, is a key path that reads the reported values in both trees, if it has a text form |
| Comparison.AgreeIfSame | servers/javascript/src/snapshot.ts:183-204 | two documents agree exactly when they look the same, or both are absent |
| Comparison.BlobsTellApart | servers/javascript/src/utils.ts:49-52 | a property with another blob, or with none, makes documents differ |
| Comparison.DifferentKinds | servers/javascript/src/snapshot.ts:139-163 | values that are not both arrays or both objects are reported as a whole, but for null where an object is expected, which throws |
| Comparison.OneKeyDiffers | servers/javascript/src/snapshot.ts:158-177 | objects that differ in one key are told apart there: at the key if only one has it, else inside its values |
| Updates.WritePath | servers/javascript/src/snapshot.ts:96-99 | writes one value through a cached path, or throws for a bad path or a type mismatch |
| Updates.AssignAllProperties | servers/javascript/src/snapshot.ts:101-106 | all property groups are assigned in order, up to the first that throws |
| Updates.RemoveProperties | servers/javascript/src/snapshot.ts:107-110 | all removals are made in order, up to the first that throws |
| Updates.AttachBlobs | servers/javascript/src/snapshot.ts:111-114 | all blobs are loaded and set in order, up to the first that throws |
| Updates.ApplyUpdate | servers/javascript/src/tdk.ts:176-193 | the document edited in place is the one specified by the edits of properties, removals and blobs in turn, or the first error; if none throws, all that the fields promise can be read |
| Updates.NothingListed | servers/javascript/src/tdk.ts:170-174 | an update without changes leaves the document, or makes an empty one |
| Updates.OneMoreProperty | servers/javascript/src/tdk.ts:178-183 | one more property is set in what those before it made |
| Updates.OneMoreRemoval | servers/javascript/src/tdk.ts:184-188 | one more removal is made in what all properties and the removals before it made |
| Updates.OneMoreBlob | servers/javascript/src/tdk.ts:189-193 | one more blob is loaded and set in what everything before it made; it throws if it cannot be loaded |
| Updates.EditsCarry | servers/javascript/src/tdk.ts:176-193 | after an update that does not throw: each property whose path nothing later in the item comes near, and which does not end in a negative index, reads as its value; each removed key so left alone is undefined; each blob so left alone reads as loaded; and what was defined at a path near none of them reads as before |
| Updates.ThrowsWhen | servers/javascript/src/tdk.ts:176-193 | an update throws exactly when the path of some property, removal or blob, in the document that the fields before it made, is no key path or cannot be written, or a blob cannot be loaded |
| Databases.Database.PurgeDocument | servers/javascript/src/tdk.ts:200-202 | exactly the purged document goes, at once |
| Databases.Database.UpdateMultiple | servers/javascript/src/tdk.ts:206-208 | exactly the given documents are saved and deleted |
| Databases.CommittedIDs | servers/javascript/src/tdk.ts:206-208 | after a batch there are the documents that were there or are saved, without those deleted |
| Databases.LastSaveStays | servers/javascript/src/tdk.ts:175-208 | a document that is saved and not deleted is as it was saved last |
| Snapshots.DocumentMap.Set | servers/javascript/src/snapshot.ts:219-226 | the map of maps changes at one pair of collection and ID |
| Snapshots.DocumentMap.Get | servers/javascript/src/snapshot.ts:228-230 | the value of a pair, undefined if there is none |
| Snapshots.DocumentMap.Keys | servers/javascript/src/snapshot.ts:232-237 | iteration yields each pair held |
| Snapshots.Snapshot.Record | servers/javascript/src/snapshot.ts:26-30 | records the current document under the collection name as spelled, or its absence |
| Snapshots.Snapshot.IndexChanges | servers/javascript/src/snapshot.ts:37-44 | rejects exactly when a change is for an unrecorded document; else keeps the last change listed for each |
| Snapshots.Snapshot.Expect | servers/javascript/src/snapshot.ts:51-60 | the expected document is the recorded or a new one with its change applied, absent for a delete or purge; the recorded body is edited |
| Snapshots.Snapshot.Judge | servers/javascript/src/snapshot.ts:61-72 | no failure exactly when the documents agree; else a response naming the document and where it differs, with its body for an update, or the error of a comparison that may throw |
| Snapshots.Snapshot.Check | servers/javascript/src/snapshot.ts:47-83 | one recorded document checks out exactly when its expected form is that of the current one; else the verdict is a true account |
| Snapshots.Snapshot.CheckAll | servers/javascript/src/snapshot.ts:46-84 | result true exactly when every recorded document checks out; afterwards the snapshot holds the updated bodies |
| Snapshots.KeptAsUpdated | servers/javascript/src/snapshot.ts:51-60 | what the snapshot holds after a document passed is its recorded body with all that the update promises |
| Snapshots.Snapshot.Verify | servers/javascript/src/snapshot.ts:33-85 | result true exactly when every change is for a recorded document, every patch applies and every recorded document, with its last change, agrees with the current one; a change for an unrecorded one is rejected before anything else; any other answer is about a document, and tells where it differs or which error it raised |
| Snapshots.UnnamedPasses | servers/javascript/src/snapshot.ts:47-72 | a document that no item names checks out exactly when it looks as recorded, or is absent as recorded |
| Snapshots.NamedPasses | servers/javascript/src/snapshot.ts:37-72 | one that items name checks out by the last of them: absent if it deletes or purges; else present and looking like what the update makes of the recorded one, with all that its fields promise |
| Snapshots.AbsenceReported | servers/javascript/src/snapshot.ts:186-203 | the whole answer for a document that is there, or is not, against expectation: its text names document, collection and kind of change |
| Snapshots.MismatchReported | servers/javascript/src/snapshot.ts:61-72 | the whole answer for a mismatch: text with document, collection and path, the values there in both documents, and the document for an update |
| Snapshots.VerifyCrashes | servers/javascript/src/snapshot.ts:46-83 | verification ends with the error of a comparison only over a document that may throw, and does so for sure when all documents that fail may not be reported |
| Snapshots.NullForObjectCrashes | servers/javascript/src/snapshot.ts:158-163 | a recorded object where the database now has null makes verification throw instead of reporting the mismatch |
| DatabaseUpdates.Tdk.StageUpdate | servers/javascript/src/tdk.ts:159-204 | one item joins its collection's batch, or purges at once, or throws and changes nothing |
| DatabaseUpdates.Tdk.CommitBatches | servers/javascript/src/tdk.ts:206-208 | every collection's batch is carried out, whatever the order of collections |
| DatabaseUpdates.Tdk.UpdateDatabase | servers/javascript/src/tdk.ts:151-209 | the whole command: it fails exactly when some item names an unknown collection or throws, and then all that has reached the database are the purges listed before it; else every document is left as the fields of its items say |
| DatabaseUpdates.StagingOnlyPurges | servers/javascript/src/tdk.ts:156-204 | while the list is processed the database changes by the purges listed so far and nothing else |
| DatabaseUpdates.RequestEffect | servers/javascript/src/tdk.ts:152-209 | a request that does not throw leaves of each document what the items for it, taken by themselves, make of it, however often they name it |
| DatabaseUpdates.DocRunSums | servers/javascript/src/tdk.ts:159-208 | of the items for one document any deletion prevails over any update, and a purge takes away what was in the database |
| DatabaseUpdates.LeavesDocument | servers/javascript/src/tdk.ts:159-208 | what a list leaves of a document: nothing if any item deletes it; else what its last update makes of it, or of nothing if a purge came before; else nothing after a purge; else the document |
| DatabaseUpdates.RequestLeaves | servers/javascript/src/tdk.ts:152-209 | the same for the database after a request, by the fields of the items: collection and ID, kind, and for an update all that its properties, removals and blobs promise |
| DatabaseUpdates.StagedUntil | servers/javascript/src/tdk.ts:156-204 | a request gets as far as no item names an unknown collection or is an update that throws on the document as the purges before it left it |
| RoundTrip.SnapshotUpdateVerify | servers/javascript/src/tdk.ts:152-209 | after a snapshot and an update of recorded documents, each named at most once, verification with the same list passes exactly when no item has a visible effect on a document recorded under another spelling |
| RoundTrip.VerifiedByDocument | servers/javascript/src/snapshot.ts:33-85 | after a snapshot and any update of recorded documents that does not throw, verification judges each document by the items for it alone |
| RoundTrip.RepeatedItems | servers/javascript/src/snapshot.ts:37-44 | when documents are named any number of times, each under one spelling, verification passes exactly when for each the last item prevails: a deletion; a purge with nothing saved or with a deletion; an update with no deletion and no earlier purge that it can tell |
| RoundTrip.MixedItems | servers/javascript/src/snapshot.ts:33-85 | for any list, repeated items and mixed spellings included, verification passes exactly when for each document what the last item under its spelling calls for is what all items together leave |
| RoundTrip.DocumentRoundTrip | servers/javascript/src/snapshot.ts:46-83 | for one document of a list that names each at most once: it checks out exactly when no item has a visible effect on it under another spelling |
| RoundTrip.TwoSpellingsFail | servers/javascript/src/snapshot.ts:26-44 | a document recorded under any two spellings and deleted fails verification |
| RoundTrip.SpelledTwice | servers/javascript/src/utils.ts:33-36 | every document of a named collection can be recorded under two spellings |
| RoundTrip.SnapshotDocuments | servers/javascript/src/tdk.ts:346-355 | the snapshot records exactly the listed documents as they are |
| RoundTrip.RecordUpdateVerify | servers/javascript/src/tdk.ts:346-367 | the three commands in a row, with any list: unless one throws, verification answers true exactly when every item names a recorded document and for each document the items agree; always if none is named twice or spelled otherwise than recorded |
| TestCases.ParseFoo | servers/javascript/src/keyPath.test.ts:10-11 | "foo" and "$.foo" are one key |
| TestCases.ParseElement | servers/javascript/src/keyPath.test.ts:12 | a key and an index below it |
| TestCases.ParseDots | servers/javascript/src/keyPath.test.ts:13 | "a.b.c" is three keys |
| TestCases.ParseIndexes | servers/javascript/src/keyPath.test.ts:14 | "a[12].b[-7]" has a two-digit and a negative index |
| TestCases.ParseLeadingIndex | servers/javascript/src/keyPath.test.ts:16 | "[12].z" begins with an index |
| TestCases.RefuseEmptyName | servers/javascript/src/keyPath.test.ts:26-28 | "", "$." and "x..y" are refused |
| TestCases.RefuseOpenBracket | servers/javascript/src/keyPath.test.ts:29-31 | "[1z]" and "[1" are refused |
| TestCases.RefuseFraction | servers/javascript/src/keyPath.test.ts:30 | "[1.5]" is refused |
| TestCases.SetKey | servers/javascript/src/keyPath.test.ts:76 | setting obj.a |
| TestCases.SetThroughMissing | servers/javascript/src/keyPath.test.ts:78 | setting obj.x[1] makes an array with a null before the value |
| TestCases.SetElement | servers/javascript/src/keyPath.test.ts:83 | setting arr[0] |
| TestCases.SetPastTheEnd | servers/javascript/src/keyPath.test.ts:84 | setting arr[6] of five elements puts a null in between |
| TestCases.DeleteFirst | servers/javascript/src/keyPath.test.ts:87 | deleting arr[0] moves the others down |
| TestCases.WrongContainers | servers/javascript/src/keyPath.test.ts:92-97 | arr.x, [12] and obj.a[0] cannot be set |
| TestCases.WasNotCreated | servers/javascript/src/snapshot.test.ts:36-52 | the answer when an updated document is not there |
| TestCases.WasDeleted | servers/javascript/src/snapshot.test.ts:77-95 | a deleted document passes |
| TestCases.WasNotDeleted | servers/javascript/src/snapshot.test.ts:98-117 | the answer when a deleted document is still there |
| TestCases.WasModified | servers/javascript/src/snapshot.test.ts:156-179 | a document with its third element replaced passes |
| TestCases.WasNotModified | servers/javascript/src/snapshot.test.ts:214-249 | the answer when the third element was not replaced, with path, both values and the document |
| EventDelivery.ParseAll | client/src/cbltest/api/replicator_types.py:254-285 | the flags are those of the words, in any case that `upper` undoes, and exactly an unknown word raises |
| EventDelivery.DeletedWord | client/src/cbltest/api/replicator_types.py:254-285 | "deleted" in small and in capital letters is that flag |
| EventDelivery.AccessRemovedWord | client/src/cbltest/api/replicator_types.py:254-285 | the same for "accessRemoved" |
| EventDelivery.FromWire | client/src/cbltest/api/replicator_types.py:343-351 | the client's entry has the fields sent and the flags parsed |
| EventDelivery.WireRoundTrip | servers/javascript/src/tdk.ts:267-282 | the client's entry has the document's collection with its scope, its ID, direction, both flags and error |
| EventDelivery.ReplicatorInfo.OnDocuments | servers/javascript/src/tdk.ts:266-284 | a batch is appended to the accumulated events in order, which is the arrival step of the channel |
| EventDelivery.ReplicatorInfo.GetStatus | servers/javascript/src/tdk.ts:306-320 | the response carries all accumulated events and none stays, which is the poll step of the channel |
| EventDelivery.ExactlyOnceInOrder | servers/javascript/src/tdk.ts:263-320 | under any interleaving of arrivals, polls, receptions and clears, the events produced are those cleared, cached, on their way and undrained, in this order |
| EventDelivery.ProducedIsArrived | servers/javascript/src/tdk.ts:266-284 | the events produced are the batches that the listener was called with, one after the other |
| EventDelivery.OnePollCatchesUp | client/src/cbltest/api/replicator.py:147-160 | from any reachable state, one more poll and the receptions due bring every event to the client |
| EventWaiting.SetsAreProper | client/src/cbltest/api/replicator_types.py:400-417 | however a set of entries is filled, no two members are equal under `__eq__` |
| EventWaiting.SameIsNotTransitive | client/src/cbltest/api/replicator_types.py:403-417 | the wildcard equality is not transitive |
| EventWaiting.AtMostOneMatch | client/src/cbltest/api/replicator_types.py:403-417 | a concrete event matches at most one member of a set |
| EventWaiting.LookupIsFulfilment | client/src/cbltest/api/replicator.py:219-230 | looking up an event finds exactly the entries it fulfils, by the fields of both: the same collection and ID, an allowed direction, the flags if any are asked for, and the same error or none |
| EventWaiting.EqualIfOneFulfilsBoth | client/src/cbltest/api/replicator_types.py:403-417 | entries are equal exactly when one event could fulfil both, if a code comes with each domain |
| EventWaiting.OtherDocumentsKept | client/src/cbltest/api/replicator_types.py:400-417 | a set keeps an entry unless one for the same document was added before |
| EventWaiting.TwoDocuments | client/src/cbltest/api/replicator_types.py:400-417 | entries of two documents are both kept |
| EventWaiting.CacheHoldsAll | client/src/cbltest/api/replicator.py:147-160 | the cache holds what it held and every event that the responses brought, and nothing else |
| EventWaiting.IdleCountCounts | client/src/cbltest/api/replicator.py:261-300 | retries are counted by the responses that found the replicator idle |
| EventWaiting.Replicator.GetStatus | client/src/cbltest/api/replicator.py:147-160 | the response's events are appended to the cache |
| EventWaiting.Replicator.Scan | client/src/cbltest/api/replicator.py:218-232 | scanning the unseen suffix leaves what a rescan of the whole cache would leave |
| EventWaiting.Replicator.WaitForDocEvents | client/src/cbltest/api/replicator.py:193-240 | True at the first response by which each entry has a cached event that fulfils it, False at a STOPPED one with one that has none, an error otherwise; settled as early as possible |
| EventWaiting.Replicator.WaitForAllDocEvents | client/src/cbltest/api/replicator.py:242-300 | returns at the first idle response by which all entries were matched; times out only after the given number of idle ones with some missing, or when the replicator does not become idle in time |
| EventWaiting.Replicator.WaitForAnyDocEvent | client/src/cbltest/api/replicator.py:302-351 | returns the entry of the first cached event that matches, at the first idle response by which there is one; raises exactly when an idle response within the limit carries an error before that, or events are not tracked; None only if no idle response within the limit had one; times out only when the replicator does not become idle in time |
| EventWaiting.Replicator.FirstMatch | client/src/cbltest/api/replicator.py:335-345 | the position of the first cached event that matches, given that none of those processed before did |
| EventWaiting.AnyMatchIgnoresErrors | client/src/cbltest/api/replicator.py:336-344 | the wait for any event matches as the other waits do exactly for events without an error |
| Correlation.RequestsAreAcceptable | client/src/cbltest/requests_transport.py:100-118 | every request the client sends passes the server's checks and carries its number, whatever its payload |
| Correlation.NumberOf | client/src/cbltest/websocket_router.py:92-98 | the number of a message is a whole number, or the boolean that equals it |
| Correlation.RequestCarries | client/src/cbltest/requests_transport.py:100-118 | a request has the number, the command and every other entry of its payload |
| Correlation.ResponseReports | servers/javascript/src/testServer.ts:208-220 | a response has every entry of the result, or just the error, and the head entries that the result does not overwrite |
| Correlation.HandledOrDropped | servers/javascript/src/testServer.ts:176-180 | a request is handled exactly when its `ts_id` is a number and its `ts_command` a text that begins with "/" |
| Correlation.ResponseEchoes | servers/javascript/src/testServer.ts:208-220 | a response carries its request's number exactly when the result does not overwrite it with another |
| Correlation.Future.SetResult | client/src/cbltest/websocket_router.py:99-101 | a future is completed only while it waits |
| Correlation.WebSocketRouter.Register | client/src/cbltest/websocket_router.py:117-120 | a new waiting future is pending under the number, which is what the sending step does to the client |
| Correlation.WebSocketRouter.OnMessage | client/src/cbltest/websocket_router.py:92-101 | a message completes, and takes off, exactly the future pending under its number, if the router is not stopping; otherwise nothing changes; this is what the receiving step does to the client |
| Correlation.CompletesWhen | client/src/cbltest/websocket_router.py:92-101 | a message completes the future of its number exactly if that is pending and stop has not begun |
| Correlation.WebSocketRouter.Stop | client/src/cbltest/websocket_router.py:60-77 | no future that was pending is left waiting, none is pending and the others stay as they are, as after the two stop steps |
| Correlation.RunKeepsInv | servers/javascript/src/testServer.ts:168-220 | the invariant of every reachable state, with several servers, and handlers and messages in any order, when no result carries a number but its own request's |
| Correlation.RunKeepsBook | client/src/cbltest/websocket_router.py:60-120 | in every reachable state, whatever handlers return, the numbers issued are those with a future, and the incomplete ones are pending |
| Correlation.OnlyOwnResponses | client/src/cbltest/websocket_router.py:97-101 | in every reachable state a completed future holds the response of its own server to its own request |
| Correlation.CompletedReports | servers/javascript/src/testServer.ts:208-220 | in every reachable state the result of a completed future carries its own number and all that its handler returned, or the error thrown |
| Correlation.UnconnectedStaysPending | client/src/cbltest/requests_transport.py:116-118 | the future of a request whose server is not connected stays pending until the router stops |
| Correlation.CompletedOnce | client/src/cbltest/websocket_router.py:99-101 | whatever follows and whatever handlers return, a completed future keeps its result |
| Correlation.IssuedSplit | client/src/cbltest/httplog.py:53-54 | before stop has finished, whatever handlers return, the numbers issued split into pending and completed ones |
| Correlation.StopLeavesNoneWaiting | client/src/cbltest/websocket_router.py:60-77 | once stop has finished, whatever handlers return, no registered future is incomplete |
| Correlation.CanComplete | servers/javascript/src/testServer.ts:168-205 | from any reachable state before stop, a request that was sent can be seen to its end whatever its handler returns |
| Correlation.StrayNumberMisroutes | servers/javascript/src/testServer.ts:213 | a run in which a result with its own number completes the future of a request nobody answered |
| Correlation.StrayResultCompletes | servers/javascript/src/testServer.ts:208-220 | in any reachable state before stop, a result that carries the number of another pending request completes that request, and its own stays pending with nothing on its way |
| UsageScan.NeedIsLeast | scripts/check_topology_markers.py:234-237 | the number needed for a constant index, negative or not, is the least list length that puts it in range |
| UsageScan.TestItemAccess | scripts/check_topology_markers.py:210-248 | each of the test object's six lists: an access by a literal index, negative ones included, is one of its marker and index; by anything else, or to the list as a whole, one without an index |
| UsageScan.ClusterItemAccess | scripts/check_topology_markers.py:73-97 | an access to a list of cluster `k` by a literal index uses that list and the list of clusters at `k` |
| UsageScan.NoAccess | scripts/check_topology_markers.py:100-104 | no other attribute, and no attribute of a name of unknown type, is an access |
| UsageScan.AccessesInside | scripts/check_topology_markers.py:226-248 | a call or other node accesses just what its parts access |
| UsageScan.OneItemNeeds | scripts/check_topology_markers.py:234-237 | a single index `n` calls for `n + 1`, or `-n` if negative |
| UsageScan.MergeInto | scripts/check_topology_markers.py:421-422 | merging takes the maximum per marker |
| UsageScan.LocalUsage | scripts/check_topology_markers.py:210-248 | the walk gives, per marker, exactly the maximum need over the constant indexes in the body, and the markers used otherwise |
| UsageScan.ScanUsage | scripts/check_topology_markers.py:387-425 | with the shared visited set, a scan sums up exactly the newly visited functions, which are all reached and closed under calls up to earlier visits; it terminates on cyclic graphs |
| UsageScan.ScanAll | scripts/check_topology_markers.py:387-425 | a whole scan sums up exactly the functions reachable from its root |
| UsageScan.ExploredIsAllReached | scripts/check_topology_markers.py:400-425 | the functions visited are exactly those reachable |
| MarkerCheck.Declared | scripts/check_topology_markers.py:474-477 | the loop gives the update of the class markers from the outermost class inwards, and last of the test's own |
| MarkerCheck.EffectiveIsClosest | scripts/check_topology_markers.py:474-477 | that update holds, for each marker, the one closest to the test |
| MarkerCheck.InnermostPrevails | scripts/check_topology_markers.py:474-477 | a marker on the test prevails over all classes, one on an inner class over those around it |
| MarkerCheck.ClassAutouseUsage | scripts/check_topology_markers.py:428-447 | sums up what the autouse fixtures of a class reach |
| MarkerCheck.RunsIfReached | scripts/check_topology_markers.py:428-485 | what counts for a test are the functions that calls lead to from it or from one of its class's autouse fixtures |
| MarkerCheck.Compare | scripts/check_topology_markers.py:487-509 | every violation listed is justified and every justified one is listed |
| MarkerCheck.TestUsage | scripts/check_topology_markers.py:479-485 | sums up what the test and its class's autouse fixtures reach |
| MarkerCheck.CheckFunction | scripts/check_topology_markers.py:470-509 | a test has no index violation exactly when its traced indexes, its fixtures' included, are in range of what their markers count wherever a topology with a cluster meets the markers; a violation names the greatest need and the number declared; a list used without any constant index is reported exactly when its marker is missing |
| MarkerCheck.FlaggedIffUnsafe | scripts/check_topology_markers.py:487-500 | an index is flagged exactly when some topology with a cluster that meets the markers has fewer of what its marker counts than the index calls for |
| Clusters.ClusterBuilder.AddEntry | client/src/cbltest/__init__.py:33-37 | the entry is appended to the list of its kind and index, whatever integer that is |
| Clusters.PickedInOrder | client/src/cbltest/__init__.py:33-37 | two entries of one kind and index are kept in the order of addition |
| Clusters.ClusterBuilder.Build | client/src/cbltest/__init__.py:39-61 | succeeds exactly when there are gateways for all clusters, no index is missing, and each cluster has a server or a single gateway that uses Rosmar; then each entry is in the cluster of its index in insertion order; else there is no such arrangement, or a cluster without servers precedes one with servers in it |
| Clusters.FormCluster | client/src/cbltest/api/cluster.py:40-54 | the constructor of a cluster raises exactly when there is no gateway, or no server beside several gateways or one that does not use Rosmar |
| Clusters.RefusedForGood | client/src/cbltest/__init__.py:51-61 | entries that are refused cannot be arranged in clusters, or only so that a cluster without servers precedes one with servers |
| Clusters.ArrangementAccepted | client/src/cbltest/__init__.py:51-61 | entries that can be arranged in clusters are accepted exactly when no cluster without servers precedes one with servers |
| Clusters.OneArrangement | client/src/cbltest/__init__.py:33-49 | there is at most one arrangement |
| Clusters.RosmarFirstRefused | client/src/cbltest/__init__.py:55-61 | a cluster of one gateway that uses Rosmar followed by one with a server is an arrangement, and is refused |
| Clusters.MakeClusters | client/src/cbltest/__init__.py:167-190 | the clusters of a configuration hold its gateways and servers by index and in order; None exactly when there is no such arrangement or it has a cluster without servers before one with servers |
| Clusters.CountsAddUp | client/src/cbltest/__init__.py:39-49 | the clusters hold as many entries of each kind as were added |
| Clusters.CheckClusters | client/src/cbltest/plugins/required_topology.py:79-97 | the test runs exactly when some gateway's index reaches the number requested |
| Clusters.CheckCountsClusters | client/src/cbltest/plugins/required_topology.py:79-97 | when the clusters could be built, the test runs exactly when there are as many as requested and at least one |
| Clusters.MarkerCountsAllClusters | client/src/cbltest/__init__.py:100-108 | the gateways counted by the marker are those of the first cluster exactly when there is at most one cluster, and then so are the servers |
| RuntimeCheck.RuntimeSetup | client/src/cbltest/plugins/required_topology.py:50-104 | the test runs exactly when every declared marker is satisfied |
| RuntimeCheck.MarkerByMarker | client/src/cbltest/plugins/required_topology.py:50-104 | each marker is about the number of its own kind, that of clusters about the indexes of gateways, and all must be satisfied |
| RuntimeCheck.SetupMeansAdmitted | client/src/cbltest/plugins/required_topology.py:70-104 | on built clusters, that is exactly when the topology meets the markers |
| RuntimeCheck.OneClusterIsSafe | client/src/cbltest/__init__.py:95-108 | an accepted test that runs on at most one cluster has every traced index in range of the real list, but for the list of clusters when there is none |
| RuntimeCheck.SecondIsNotThere | client/src/cbltest/__init__.py:100-108 | for any number of clusters above one, any of them, and any index that calls for a second gateway or server, some clusters can be built on which the markers let the test run and that cluster has no such gateway or server |
| RuntimeCheck.NoServerThere | client/src/cbltest/__init__.py:39-49 | for any cluster but the first, some clusters can be built on which the markers let the test run and that cluster has no server |
| RuntimeCheck.AcceptedIsSafeIff | client/src/cbltest/__init__.py:100-108 | an accepted test has all indexes in range on all clusters of a given number exactly when there is one, or no index calls for a second gateway of a cluster, a second server of the first cluster, or any server of a later one |
| RuntimeCheck.FirstServerIsSafe | scripts/check_topology_markers.py:88-96 | the access `cblpytest.clusters[0].couchbase_servers[0]` is traced to the first cluster, and is safe on any number of clusters once a server is declared |
| RuntimeCheck.TwoClustersOfOneGateway | client/src/cbltest/__init__.py:100-103 | two clusters of one gateway satisfy `min_sync_gateways(2)`, yet the second gateway is out of range |
| RuntimeCheck.CheckedTestRunsInRange | scripts/check_topology_markers.py:470-509 | a test with no violations is skipped, or on one cluster has every traced constant index in range of the list it is used on, and on more clusters every index that fits there |
| Resolvers.ResolveC | servers/c/src/cbl/CBLReplicationConflictResolver.cpp:109-164 | the property becomes the union exactly when both dictionaries agree on every shared key, else a text naming a key on which they disagree |
| Resolvers.UnionIsSymmetric | servers/c/src/cbl/CBLReplicationConflictResolver.cpp:129-163 | the union does not depend on which side is local exactly when the dictionaries agree |
| Resolvers.BlobAsDict | servers/c/src/cbl/CBLReplicationConflictResolver.cpp:109-127 | the C server takes a blob for a dictionary, the JavaScript server does not |
| Resolvers.TextNamesKey | servers/c/src/cbl/CBLReplicationConflictResolver.cpp:150-156 | different keys give different conflict texts |
| Resolvers.ResolveJS | servers/javascript/src/conflictResolvers.ts:41-67 | the property becomes the union when no key is shared, else an error naming a shared key |
| Resolvers.ResolversCompared | servers/javascript/src/conflictResolvers.ts:45-66 | on dictionaries without a common key both servers set the same union; the C server merges exactly when they agree |
| Resolvers.SharedKeyRefused | servers/javascript/src/conflictResolvers.ts:51-57 | the JavaScript server refuses a shared key with equal values |
| Dataset.LoadDataset | client/src/cbltest/api/syncgateway.py:942-989 | the posts hold the documents in order and are never empty; each is for its documents' keyspace exactly when no document with a blank name is followed by one of another keyspace; with all names given none is longer than 501 and neighbours of one keyspace are split only at 501 |
| Dataset.OneKeyspace | client/src/cbltest/api/syncgateway.py:963-974 | the documents of a single keyspace go out in posts of 501, of which only the last may be smaller |
| JsonEquivalence.Reflexive | client/src/cbltest/jsonhelper.py:137-190 | every value is equivalent to itself |
| JsonEquivalence.Transitive | client/src/cbltest/jsonhelper.py:137-190 | equivalence is transitive |
| JsonEquivalence.OneMoreKey | client/src/cbltest/jsonhelper.py:138-163 | one more key on the left must be on the right with an equivalent value; one more on the right makes no difference |
| JsonEquivalence.OneMoreElement | client/src/cbltest/jsonhelper.py:165-188 | lists are compared element by element, and never equivalent at different lengths |
| JsonEquivalence.ScalarsEquivalent | client/src/cbltest/jsonhelper.py:190 | any other value has only equals, of which a boolean may be its number |
| JsonEquivalence.BothWaysIsEqual | client/src/cbltest/jsonhelper.py:137-190 | equivalence both ways is equality as Python compares, at every depth |
| JsonEquivalence.BothWaysIsPlainEquality | client/src/cbltest/jsonhelper.py:137-190 | without booleans it is plain equality of the trees |
| JsonEquivalence.TrueIsOne | client/src/cbltest/jsonhelper.py:190 | `true` and `1` are equivalent both ways |

## Left out

- WriteThenRead: requires that the last component is not a negative index; assigning there makes an array property, and array properties at negative indexes are not part of the document trees.
- Databases.Database.UpdateMultiple: what the library does when one batch names a document twice is not modelled; saves are taken in order, then deletes, and `RepeatedItems` rests on that.
- Identity of JavaScript objects: documents are trees, so a value placed into two documents is two values, and `getDocument` is taken to return copies.
- JavaScript prototype keys such as `__proto__`, and NaN and infinities, which JSON does not have.
- The order in which object keys and snapshot documents are visited: any order is allowed, so which of several failures is reported is left open.
- The text of errors other than those compared here, HTTP status codes, logging and telemetry.
- Which cluster a receiver is, where its index in the list of clusters is not a constant: it may be any, so an index on its lists counts as in range when it is so in every cluster.
- Clocks: whether the time to wait for an idle replicator has run out is an argument of the waits.
- A `ts_id` that is an array or an object, at which the router's handler raises.
- The `test_server_only` option, under which no clusters are made; asking a gateway whether it uses Rosmar is a flag of its configuration.
- Command plumbing of `TDKImpl`: database and snapshot names, sessions, reset, blob downloads (a function from URL to blob).
- Couchbase Lite, Fleece and Sync Gateway themselves; saving, deleting and purging a document are exact.
- The entries that identify client, request and test in a request (`ts_clientID`, `ts_requestID` and so on) count as part of its payload.
- Dropped connections, the hello message, task cancellation, and requests made after stop has finished.
- Message order on a connection: messages may arrive in any order, which covers the real one.
- Python syntax beyond names, attributes, subscripts, calls and constants; how types of receivers and call targets are found (`_seed_type_env`, `_collect_assign_types`, `_resolve_call`); they are given for each function, and a parameter that stands for different clusters has no index.
- The walk's record of visited attribute nodes is a flag on the worklist entry instead of a set of node identities.
- Reading markers from decorators (`_min_markers`) and finding autouse fixtures: both are given.
- The local-wins, remote-wins, delete and merge resolvers: single expressions.
- File reading and failed posts in the dataset loader.

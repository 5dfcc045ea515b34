/** The update items of a request, and what one of them does to one document. */
module Updates {
  import opened Wrappers
  import opened Json
  import opened CollectionNames
  import opened KeyPathSyntax
  import opened KeyPathAccess
  import opened Comparison

  datatype Error =
    | UnknownCollection | UnknownDocument
    | InvalidKeyPath | TypeMismatch | BlobUnavailable
    | ComparisonCrash

  /** A request item; a list that the request leaves out is empty. Properties and blobs are listed
      in the order in which their names are enumerated. */
  datatype UpdateItem = UpdateItem(
    kind: Kind,
    collection: string,
    documentID: string,
    updatedProperties: seq<seq<(string, Json)>>,
    removedProperties: seq<string>,
    updatedBlobs: seq<(string, string)>)

  /** Fetches the blob at a URL; None where that throws. */
  type BlobLoader = string -> Option<Json>

  type DocKey = (string, string)

  /** The document an item names, with the collection as spelled in the request. */
  function Spelled(u: UpdateItem): DocKey { (u.collection, u.documentID) }

  /** The document a key stands for in the database. */
  function Normal(key: DocKey): DocKey { (NormalizeCollectionID(key.0), key.1) }

  function Target(u: UpdateItem): DocKey { Normal(Spelled(u)) }

  // ---------------------------------------------------------------- edits of one document

  datatype Edit = Assign(path: string, value: Json) | Remove(path: string) | Attach(path: string, url: string)

  function Assignments(props: seq<(string, Json)>): seq<Edit> {
    seq(|props|, i requires 0 <= i < |props| => Assign(props[i].0, props[i].1))
  }

  function AllAssignments(groups: seq<seq<(string, Json)>>): seq<Edit> {
    if groups == [] then [] else AllAssignments(groups[..|groups| - 1]) + Assignments(groups[|groups| - 1])
  }

  function Removals(paths: seq<string>): seq<Edit> {
    seq(|paths|, i requires 0 <= i < |paths| => Remove(paths[i]))
  }

  function Attachments(blobs: seq<(string, string)>): seq<Edit> {
    seq(|blobs|, i requires 0 <= i < |blobs| => Attach(blobs[i].0, blobs[i].1))
  }

  /** The edits of an update, in the order they are made. */
  function Edits(u: UpdateItem): seq<Edit> {
    AllAssignments(u.updatedProperties) + Removals(u.removedProperties) + Attachments(u.updatedBlobs)
  }

  function ApplyPatch(doc: Json, path: string, value: Option<Json>): Result<Json, Error> {
    match Parse(path)
    case None => Err(InvalidKeyPath)
    case Some(components) =>
      var w := Write(doc, components, value);
      if w.ok then Ok(w.doc) else Err(TypeMismatch)
  }

  function ApplyEdit(doc: Json, e: Edit, load: BlobLoader): Result<Json, Error> {
    match e
    case Assign(path, value) => ApplyPatch(doc, path, Some(value))
    case Remove(path) => ApplyPatch(doc, path, None)
    case Attach(path, url) => if load(url).None? then Err(BlobUnavailable) else ApplyPatch(doc, path, load(url))
  }

  /** The edits made one after the other, up to the first that throws. */
  function ApplyEdits(doc: Json, edits: seq<Edit>, load: BlobLoader): Result<Json, Error> {
    if edits == [] then Ok(doc)
    else
      match ApplyEdits(doc, edits[..|edits| - 1], load)
      case Err(e) => Err(e)
      case Ok(d) => ApplyEdit(d, edits[|edits| - 1], load)
  }

  /** Edits after edits: the second list starts from what the first one left. */
  lemma {:induction false} ApplyAppended(doc: Json, first: seq<Edit>, second: seq<Edit>, load: BlobLoader)
    ensures ApplyEdits(doc, first + second, load)
            == match ApplyEdits(doc, first, load)
               case Err(e) => Err(e)
               case Ok(d) => ApplyEdits(d, second, load)
    decreases |second|
  {
    if second == [] {
      assert first + second == first;
    } else {
      var most := second[..|second| - 1];
      ApplyAppended(doc, first, most, load);
      var all := first + second;
      assert all[..|all| - 1] == first + most && all[|all| - 1] == second[|second| - 1];
    }
  }

  /** The body that an update starts from. */
  function Start(doc: Option<Json>): Json { if doc.Some? then doc.value else EMPTY_DOCUMENT }

  /** The document an item calls for, given the one that is there: None for none. */
  function Effect(doc: Option<Json>, u: UpdateItem, load: BlobLoader): Result<Option<Json>, Error> {
    if !u.kind.Update? then Ok(None)
    else
      match ApplyEdits(Start(doc), Edits(u), load)
      case Err(e) => Err(e)
      case Ok(d) => Ok(Some(d))
  }

  // ---------------------------------------------------------------- what an update does, field by field

  /** A value set, or a path deleted, in what went before; the first error stays. */
  function Patched(before: Result<Option<Json>, Error>, path: string, value: Option<Json>): Result<Option<Json>, Error> {
    match before
    case Err(e) => Err(e)
    case Ok(None) => Ok(None)
    case Ok(Some(doc)) =>
      if Parse(path).None? then Err(InvalidKeyPath)
      else
        var w := Write(doc, Parse(path).value, value);
        if w.ok then Ok(Some(w.doc)) else Err(TypeMismatch)
  }

  /** Without any changes listed, an update only makes sure that there is a document. */
  lemma NothingListed(doc: Option<Json>, u: UpdateItem, load: BlobLoader)
    requires u.kind.Update?
    ensures Effect(doc, u.(updatedProperties := [], removedProperties := [], updatedBlobs := []), load)
            == Ok(Some(if doc.Some? then doc.value else Obj(map[])))
  {
    assert Edits(u.(updatedProperties := [], removedProperties := [], updatedBlobs := [])) == [];
  }

  /** Properties are assigned first, one after the other. */
  lemma OneMoreProperty(doc: Option<Json>, u: UpdateItem, groups: seq<seq<(string, Json)>>, group: seq<(string, Json)>,
                        path: string, v: Json, load: BlobLoader)
    requires u.kind.Update? && u.removedProperties == [] && u.updatedBlobs == []
    ensures Effect(doc, u.(updatedProperties := groups + [group + [(path, v)]]), load)
            == Patched(Effect(doc, u.(updatedProperties := groups + [group]), load), path, Some(v))
  {
    var more, less := groups + [group + [(path, v)]], groups + [group];
    assert more[..|groups|] == less[..|groups|] == groups;
    AssignmentsMore(groups, group, path, v);
    OneMoreEdit(doc, u.(updatedProperties := less), u.(updatedProperties := more), Assign(path, v), load);
  }

  lemma AssignmentsMore(groups: seq<seq<(string, Json)>>, group: seq<(string, Json)>, path: string, v: Json)
    ensures AllAssignments(groups + [group + [(path, v)]]) == AllAssignments(groups + [group]) + [Assign(path, v)]
  {
    var more, less := groups + [group + [(path, v)]], groups + [group];
    assert more[..|groups|] == less[..|groups|] == groups;
    assert Assignments(group + [(path, v)]) == Assignments(group) + [Assign(path, v)];
  }

  /** A group without properties makes no difference. */
  lemma EmptyGroup(doc: Option<Json>, u: UpdateItem, groups: seq<seq<(string, Json)>>, load: BlobLoader)
    ensures Effect(doc, u.(updatedProperties := groups + [[]]), load) == Effect(doc, u.(updatedProperties := groups), load)
  {
    assert (groups + [[]])[..|groups|] == groups;
    assert AllAssignments(groups + [[]]) == AllAssignments(groups);
  }

  /** Then properties are removed, one after the other. */
  lemma OneMoreRemoval(doc: Option<Json>, u: UpdateItem, paths: seq<string>, path: string, load: BlobLoader)
    requires u.kind.Update? && u.updatedBlobs == []
    ensures Effect(doc, u.(removedProperties := paths + [path]), load)
            == Patched(Effect(doc, u.(removedProperties := paths), load), path, None)
  {
    assert Removals(paths + [path]) == Removals(paths) + [Remove(path)];
    OneMoreEdit(doc, u.(removedProperties := paths), u.(removedProperties := paths + [path]), Remove(path), load);
  }

  /** Blobs come last, each loaded and then set. */
  lemma OneMoreBlob(doc: Option<Json>, u: UpdateItem, blobs: seq<(string, string)>, path: string, url: string, load: BlobLoader)
    requires u.kind.Update?
    ensures var before := Effect(doc, u.(updatedBlobs := blobs), load);
            Effect(doc, u.(updatedBlobs := blobs + [(path, url)]), load)
            == if before.Ok? && load(url).None? then Err(BlobUnavailable) else Patched(before, path, load(url))
  {
    assert Attachments(blobs + [(path, url)]) == Attachments(blobs) + [Attach(path, url)];
    OneMoreEdit(doc, u.(updatedBlobs := blobs), u.(updatedBlobs := blobs + [(path, url)]), Attach(path, url), load);
  }

  lemma OneMoreEdit(doc: Option<Json>, less: UpdateItem, more: UpdateItem, e: Edit, load: BlobLoader)
    requires less.kind.Update? && more.kind.Update? && Edits(more) == Edits(less) + [e]
    ensures Effect(doc, more, load)
            == match Effect(doc, less, load)
               case Err(error) => Err(error)
               case Ok(d) =>
                 match ApplyEdit(d.value, e, load)
                 case Err(error) => Err(error)
                 case Ok(after) => Ok(Some(after))
  {
    assert Edits(more)[..|Edits(more)| - 1] == Edits(less);
  }

  /** Other kinds of items leave no document. */
  lemma NoUpdate(doc: Option<Json>, u: UpdateItem, load: BlobLoader)
    requires !u.kind.Update?
    ensures Effect(doc, u, load) == Ok(None)
  {
  }

  // ---------------------------------------------------------------- what can be read afterwards

  /** The path written as `s`, if it is one, is neither above nor below `p`. */
  ghost predicate Apart(p: Path, s: string) { Parse(s).Some? ==> Incomparable(p, Parse(s).value) }

  /** The same for a path to be removed, which must end in a key: removing an element moves others. */
  ghost predicate ApartRemoval(p: Path, s: string) {
    Parse(s).Some? ==> Incomparable(p, Parse(s).value) && Parse(s).value[|Parse(s).value| - 1].Key?
  }

  ghost predicate ApartEdit(p: Path, e: Edit) {
    match e
    case Assign(path, _) => Apart(p, path)
    case Remove(path) => ApartRemoval(p, path)
    case Attach(path, _) => Apart(p, path)
  }

  /** A path that can be read once it has been written. */
  predicate Readable(p: Path) { p != [] && !IsNegative(p[|p| - 1]) }

  /** The key at the end of the path is absent from an object that is there. */
  predicate Gone(doc: Json, p: Path)
    requires p != [] && p[|p| - 1].Key?
  {
    var at := Read(doc, p[..|p| - 1]);
    at.Some? && at.value.Obj? && p[|p| - 1].name !in at.value.fields
  }

  /** The edit can be seen in the document. */
  predicate Visible(doc: Json, e: Edit, load: BlobLoader) {
    match e
    case Assign(path, v) => Parse(path).Some? && (Readable(Parse(path).value) ==> Read(doc, Parse(path).value) == Some(v))
    case Remove(path) =>
      && Parse(path).Some?
      && var p := Parse(path).value;
         p != [] && p[|p| - 1].Key? ==> Gone(doc, p)
    case Attach(path, url) =>
      && Parse(path).Some? && load(url).Some?
      && (Readable(Parse(path).value) ==> Read(doc, Parse(path).value) == load(url))
  }

  lemma VisibleAtOnce(doc: Json, e: Edit, after: Json, load: BlobLoader)
    requires ApplyEdit(doc, e, load) == Ok(after)
    ensures Visible(after, e, load)
  {
    match e
    case Assign(path, v) =>
      if Readable(Parse(path).value) {
        WriteThenRead(doc, Parse(path).value, v);
      }
    case Remove(path) =>
      var p := Parse(path).value;
      if p != [] && p[|p| - 1].Key? {
        RemovedIsGone(doc, p);
      }
    case Attach(path, url) =>
      if Readable(Parse(path).value) {
        WriteThenRead(doc, Parse(path).value, load(url).value);
      }
  }

  lemma RemovedIsGone(doc: Json, p: Path)
    requires p != [] && p[|p| - 1].Key? && Write(doc, p, None).ok
    ensures Gone(Write(doc, p, None).doc, p)
  {
    var after, parent, k := Write(doc, p, None).doc, p[..|p| - 1], p[|p| - 1].name;
    assert p == parent + [Key(k)];
    ContainerExists(doc, p, None);
    DeleteKey(doc, p);
    ReadStep(after, parent, Key(k));
    LastContainerFits(doc, p, None);
  }

  /** An edit elsewhere leaves an earlier one to be seen. */
  lemma StaysVisible(doc: Json, e: Edit, later: Edit, after: Json, load: BlobLoader)
    requires Visible(doc, e, load) && ApplyEdit(doc, later, load) == Ok(after)
    requires ApartEdit(Parse(e.path).value, later)
    ensures Visible(after, e, load)
  {
    var p := Parse(e.path).value;
    match e
    case Assign(_, _) =>
      if Readable(p) {
        EditFrame(doc, later, after, p, load);
      }
    case Remove(_) =>
      if p != [] && p[|p| - 1].Key? {
        StaysGone(doc, p, later, after, load);
      }
    case Attach(_, _) =>
      if Readable(p) {
        EditFrame(doc, later, after, p, load);
      }
  }

  lemma StaysGone(doc: Json, p: Path, later: Edit, after: Json, load: BlobLoader)
    requires p != [] && p[|p| - 1].Key? && Gone(doc, p)
    requires ApplyEdit(doc, later, load) == Ok(after) && ApartEdit(p, later)
    ensures Gone(after, p)
  {
    KeyAtEnd(p);
    EditWrites(doc, p, later, after, load);
    AbsentKeyFrame(doc, p[..|p| - 1], p[|p| - 1].name, Parse(later.path).value, ValueOf(later, load));
  }

  lemma KeyAtEnd(p: Path)
    requires p != [] && p[|p| - 1].Key?
    ensures p == p[..|p| - 1] + [Key(p[|p| - 1].name)]
  {
  }

  lemma EditWrites(doc: Json, p: Path, e: Edit, after: Json, load: BlobLoader)
    requires ApplyEdit(doc, e, load) == Ok(after) && ApartEdit(p, e)
    ensures Parse(e.path).Some? && Incomparable(p, Parse(e.path).value)
    ensures Write(doc, Parse(e.path).value, ValueOf(e, load)) == Written(true, after)
    ensures ValueOf(e, load).None? ==>
              Parse(e.path).value != [] && Parse(e.path).value[|Parse(e.path).value| - 1].Key?
  {
  }

  /** The value an edit writes. */
  function ValueOf(e: Edit, load: BlobLoader): Option<Json> {
    match e
    case Assign(_, v) => Some(v)
    case Remove(_) => None
    case Attach(_, url) => load(url)
  }

  lemma EditFrame(doc: Json, e: Edit, after: Json, q: Path, load: BlobLoader)
    requires ApplyEdit(doc, e, load) == Ok(after) && ApartEdit(q, e) && Read(doc, q).Some?
    ensures Read(after, q) == Read(doc, q)
  {
    var p := Parse(e.path).value;
    match e
    case Assign(_, v) => WriteFrame(doc, p, v, q);
    case Remove(_) => DeleteFrame(doc, p, q);
    case Attach(_, url) => WriteFrame(doc, p, load(url).value, q);
  }

  /** No later edit of the list is near edit `n`. */
  ghost predicate LeftInPeace(edits: seq<Edit>, n: nat)
    requires n < |edits|
  {
    Parse(edits[n].path).Some? ==>
      forall m | n < m < |edits| :: ApartEdit(Parse(edits[n].path).value, edits[m])
  }

  lemma PeaceBefore(edits: seq<Edit>, n: nat)
    requires n < |edits| - 1 && LeftInPeace(edits, n)
    ensures edits[..|edits| - 1][n] == edits[n] && LeftInPeace(edits[..|edits| - 1], n)
    ensures Parse(edits[n].path).Some? ==> ApartEdit(Parse(edits[n].path).value, edits[|edits| - 1])
  {
    var most := edits[..|edits| - 1];
    assert forall m | n < m < |most| :: most[m] == edits[m];
  }

  /** An edit that is left in peace can be seen in the end. */
  lemma {:induction false} EditVisible(doc: Json, edits: seq<Edit>, n: nat, after: Json, load: BlobLoader)
    requires ApplyEdits(doc, edits, load) == Ok(after)
    requires n < |edits| && LeftInPeace(edits, n)
    ensures Visible(after, edits[n], load)
    decreases |edits|
  {
    var before := ApplyEdits(doc, edits[..|edits| - 1], load).value;
    if n < |edits| - 1 {
      PeaceBefore(edits, n);
      EditVisible(doc, edits[..|edits| - 1], n, before, load);
      ParsesIfVisible(before, edits[n], load);
      StaysVisible(before, edits[n], edits[|edits| - 1], after, load);
    } else {
      VisibleAtOnce(before, edits[n], after, load);
    }
  }

  lemma ParsesIfVisible(doc: Json, e: Edit, load: BlobLoader)
    requires Visible(doc, e, load)
    ensures Parse(e.path).Some?
  {
  }

  /** What could be read where no edit comes near still can. */
  lemma {:induction false} EditsFrame(doc: Json, edits: seq<Edit>, after: Json, q: Path, load: BlobLoader)
    requires ApplyEdits(doc, edits, load) == Ok(after)
    requires Read(doc, q).Some? && forall n | 0 <= n < |edits| :: ApartEdit(q, edits[n])
    ensures Read(after, q) == Read(doc, q)
  {
    if edits != [] {
      var most, last := edits[..|edits| - 1], edits[|edits| - 1];
      var before := ApplyEdits(doc, most, load).value;
      assert forall n | 0 <= n < |most| :: most[n] == edits[n];
      EditsFrame(doc, most, before, q, load);
      assert ApartEdit(q, edits[|most|]);
      EditFrame(before, last, after, q, load);
    }
  }

  // ---------------------------------------------------------------- where a field's edit stands

  /** The number of properties in the first `g` groups. */
  function Before(groups: seq<seq<(string, Json)>>, g: nat): nat
    requires g <= |groups|
  {
    if g == 0 then 0 else Before(groups, g - 1) + |groups[g - 1]|
  }

  lemma {:induction false} BeforeCounts(groups: seq<seq<(string, Json)>>, g: nat)
    requires g <= |groups|
    ensures |AllAssignments(groups[..g])| == Before(groups, g)
  {
    if g > 0 {
      BeforeCounts(groups, g - 1);
      assert groups[..g][..g - 1] == groups[..g - 1];
    }
  }

  lemma {:induction false} BeforeGrows(groups: seq<seq<(string, Json)>>, g: nat, h: nat)
    requires g <= h <= |groups|
    ensures Before(groups, g) <= Before(groups, h)
    decreases h
  {
    if g < h {
      BeforeGrows(groups, g, h - 1);
    }
  }

  lemma GroupStart(groups: seq<seq<(string, Json)>>, g: nat, i: nat)
    requires g < |groups| && i < |groups[g]|
    ensures Before(groups, g) + i < |AllAssignments(groups)|
    ensures AllAssignments(groups)[Before(groups, g) + i] == Assign(groups[g][i].0, groups[g][i].1)
    ensures AllAssignments(groups)[..Before(groups, g) + i] == AllAssignments(groups[..g] + [groups[g][..i]])
  {
    var before, upTo := AllAssignments(groups[..g]), AllAssignments(groups[..g + 1]);
    BeforeCounts(groups, g);
    assert groups[..g + 1][..g] == groups[..g];
    assert upTo == before + Assignments(groups[g]);
    AllAssignmentsSplit(groups, g + 1);
    assert (groups[..g] + [groups[g][..i]])[..g] == groups[..g];
    assert Assignments(groups[g])[..i] == Assignments(groups[g][..i]);
    assert AllAssignments(groups)[..|before| + i] == upTo[..|before| + i];
  }

  lemma GroupAt(groups: seq<seq<(string, Json)>>, g: nat, i: nat)
    requires g < |groups| && i < |groups[g]|
    ensures Before(groups, g) + i < |AllAssignments(groups)|
    ensures AllAssignments(groups)[Before(groups, g) + i] == Assign(groups[g][i].0, groups[g][i].1)
  {
    GroupStart(groups, g, i);
  }

  lemma FindGroup(groups: seq<seq<(string, Json)>>, m: nat) returns (g: nat, i: nat)
    requires m < |AllAssignments(groups)|
    ensures g < |groups| && i < |groups[g]| && m == Before(groups, g) + i
  {
    BeforeCounts(groups, |groups|);
    assert groups[..|groups|] == groups;
    g, i := FindBelow(groups, m, |groups|);
  }

  lemma {:induction false} FindBelow(groups: seq<seq<(string, Json)>>, m: nat, h: nat) returns (g: nat, i: nat)
    requires h <= |groups| && m < Before(groups, h)
    ensures g < h && i < |groups[g]| && m == Before(groups, g) + i
  {
    if m < Before(groups, h - 1) {
      g, i := FindBelow(groups, m, h - 1);
    } else {
      g, i := h - 1, m - Before(groups, h - 1);
    }
  }

  // Later in the item: properties come before removals, and these before blobs.

  ghost predicate LaterPropertiesApart(p: Path, u: UpdateItem, g: nat, i: nat) {
    forall h, j | 0 <= h < |u.updatedProperties| && 0 <= j < |u.updatedProperties[h]| && (h > g || (h == g && j > i)) ::
      Apart(p, u.updatedProperties[h][j].0)
  }

  ghost predicate RemovalsApart(p: Path, u: UpdateItem, from: nat) {
    forall j | from <= j < |u.removedProperties| :: ApartRemoval(p, u.removedProperties[j])
  }

  ghost predicate BlobsApart(p: Path, u: UpdateItem, from: nat) {
    forall j | from <= j < |u.updatedBlobs| :: Apart(p, u.updatedBlobs[j].0)
  }

  /** Each property that nothing later in the item comes near reads as the value given. */
  ghost predicate PropertiesRead(u: UpdateItem, after: Json) {
    forall g, i | 0 <= g < |u.updatedProperties| && 0 <= i < |u.updatedProperties[g]| ::
      PropertyReads(u, g, i, after)
  }

  ghost predicate PropertyReads(u: UpdateItem, g: nat, i: nat, after: Json)
    requires g < |u.updatedProperties| && i < |u.updatedProperties[g]|
  {
    var (path, v) := u.updatedProperties[g][i];
    && Parse(path).Some?
    && var p := Parse(path).value;
       Readable(p) && LaterPropertiesApart(p, u, g, i) && RemovalsApart(p, u, 0) && BlobsApart(p, u, 0) ==>
         Read(after, p) == Some(v)
  }

  /** Each removed key that nothing later comes near reads as undefined. */
  ghost predicate RemovedUndefined(u: UpdateItem, i: nat, after: Json)
    requires i < |u.removedProperties|
  {
    && Parse(u.removedProperties[i]).Some?
    && var p := Parse(u.removedProperties[i]).value;
       p != [] && p[|p| - 1].Key? && RemovalsApart(p, u, i + 1) && BlobsApart(p, u, 0) ==> Read(after, p) == None
  }

  /** Each blob that nothing later comes near reads as the one loaded. */
  ghost predicate BlobReads(u: UpdateItem, i: nat, after: Json, load: BlobLoader)
    requires i < |u.updatedBlobs|
  {
    var (path, url) := u.updatedBlobs[i];
    && Parse(path).Some? && load(url).Some?
    && var p := Parse(path).value;
       Readable(p) && BlobsApart(p, u, i + 1) ==> Read(after, p) == load(url)
  }

  /** What could be read where nothing in the item comes near still can. */
  ghost predicate OthersKept(u: UpdateItem, before: Json, after: Json) {
    forall q: Path | Read(before, q).Some? && AllApart(q, u) :: Read(after, q) == Read(before, q)
  }

  ghost predicate AllApart(q: Path, u: UpdateItem) {
    && (forall g, i | 0 <= g < |u.updatedProperties| && 0 <= i < |u.updatedProperties[g]| ::
          Apart(q, u.updatedProperties[g][i].0))
    && RemovalsApart(q, u, 0) && BlobsApart(q, u, 0)
  }

  /** `after` is what the update item makes of `before`, as far as its fields say. */
  ghost predicate Carries(u: UpdateItem, before: Json, after: Json, load: BlobLoader) {
    && PropertiesRead(u, after)
    && (forall i | 0 <= i < |u.removedProperties| :: RemovedUndefined(u, i, after))
    && (forall i | 0 <= i < |u.updatedBlobs| :: BlobReads(u, i, after, load))
    && OthersKept(u, before, after)
  }

  /** An edit of the list stems from a field, in this order. */
  lemma EditFrom(u: UpdateItem, m: nat)
    requires m < |Edits(u)|
    ensures var a, r := |AllAssignments(u.updatedProperties)|, |u.removedProperties|;
            && (m < a ==> Edits(u)[m] == AllAssignments(u.updatedProperties)[m])
            && (a <= m < a + r ==> Edits(u)[m] == Remove(u.removedProperties[m - a]))
            && (a + r <= m ==>
                  m - a - r < |u.updatedBlobs|
                  && Edits(u)[m] == Attach(u.updatedBlobs[m - a - r].0, u.updatedBlobs[m - a - r].1))
  {
  }

  /** An assignment further on stems from a later property. */
  lemma LaterAssignment(p: Path, u: UpdateItem, g: nat, i: nat, m: nat)
    requires g < |u.updatedProperties| && i < |u.updatedProperties[g]| && LaterPropertiesApart(p, u, g, i)
    requires Before(u.updatedProperties, g) + i < m < |AllAssignments(u.updatedProperties)|
    ensures ApartEdit(p, AllAssignments(u.updatedProperties)[m])
  {
    var h, j := FindAssignment(u.updatedProperties, m);
    ApartFromLater(p, u, g, i, h, j);
  }

  lemma FindAssignment(groups: seq<seq<(string, Json)>>, m: nat) returns (g: nat, i: nat)
    requires m < |AllAssignments(groups)|
    ensures g < |groups| && i < |groups[g]| && m == Before(groups, g) + i
    ensures AllAssignments(groups)[m] == Assign(groups[g][i].0, groups[g][i].1)
  {
    g, i := FindGroup(groups, m);
    GroupAt(groups, g, i);
  }

  lemma ApartFromLater(p: Path, u: UpdateItem, g: nat, i: nat, h: nat, j: nat)
    requires LaterPropertiesApart(p, u, g, i)
    requires g < |u.updatedProperties| && i < |u.updatedProperties[g]|
    requires h < |u.updatedProperties| && j < |u.updatedProperties[h]|
    requires Before(u.updatedProperties, g) + i < Before(u.updatedProperties, h) + j
    ensures Apart(p, u.updatedProperties[h][j].0)
  {
    LaterGroup(u.updatedProperties, g, i, h, j);
  }

  /** Positions are ordered as the properties are. */
  lemma LaterGroup(groups: seq<seq<(string, Json)>>, g: nat, i: nat, h: nat, j: nat)
    requires g < |groups| && i < |groups[g]| && h < |groups| && j < |groups[h]|
    requires Before(groups, g) + i < Before(groups, h) + j
    ensures h > g || (h == g && j > i)
  {
    if h < g {
      BeforeGrows(groups, h + 1, g);
    }
  }

  lemma AfterProperty(p: Path, u: UpdateItem, g: nat, i: nat, m: nat)
    requires g < |u.updatedProperties| && i < |u.updatedProperties[g]|
    requires LaterPropertiesApart(p, u, g, i) && RemovalsApart(p, u, 0) && BlobsApart(p, u, 0)
    requires Before(u.updatedProperties, g) + i < m < |Edits(u)|
    ensures ApartEdit(p, Edits(u)[m])
  {
    EditFrom(u, m);
    if m < |AllAssignments(u.updatedProperties)| {
      LaterAssignment(p, u, g, i, m);
    }
  }

  lemma AfterRemoval(p: Path, u: UpdateItem, i: nat, m: nat)
    requires RemovalsApart(p, u, i) && BlobsApart(p, u, 0)
    requires |AllAssignments(u.updatedProperties)| + i <= m < |Edits(u)|
    ensures ApartEdit(p, Edits(u)[m])
  {
    EditFrom(u, m);
  }

  lemma AfterBlob(p: Path, u: UpdateItem, i: nat, m: nat)
    requires BlobsApart(p, u, i)
    requires |AllAssignments(u.updatedProperties)| + |u.removedProperties| + i <= m < |Edits(u)|
    ensures ApartEdit(p, Edits(u)[m])
  {
    EditFrom(u, m);
  }

  lemma PropertyIsRead(doc: Json, u: UpdateItem, g: nat, i: nat, after: Json, load: BlobLoader)
    requires ApplyEdits(doc, Edits(u), load) == Ok(after)
    requires g < |u.updatedProperties| && i < |u.updatedProperties[g]|
    ensures PropertyReads(u, g, i, after)
  {
    var n := FindProperty(u, g, i);
    var (path, v) := u.updatedProperties[g][i];
    ParsesAndReads(doc, Edits(u), n, path, v, after, load);
  }

  /** An assignment parses, and can be read if it is left in peace. */
  lemma ParsesAndReads(doc: Json, edits: seq<Edit>, n: nat, path: string, v: Json, after: Json, load: BlobLoader)
    requires ApplyEdits(doc, edits, load) == Ok(after) && n < |edits| && edits[n] == Assign(path, v)
    ensures Parse(path).Some?
    ensures LeftInPeace(edits, n) && Readable(Parse(path).value) ==> Read(after, Parse(path).value) == Some(v)
  {
    EditParses(doc, edits, n, after, load);
    if LeftInPeace(edits, n) {
      EditVisible(doc, edits, n, after, load);
    }
  }

  lemma FindProperty(u: UpdateItem, g: nat, i: nat) returns (n: nat)
    requires g < |u.updatedProperties| && i < |u.updatedProperties[g]|
    ensures n < |Edits(u)| && Edits(u)[n] == Assign(u.updatedProperties[g][i].0, u.updatedProperties[g][i].1)
    ensures NothingLater(u, g, i) ==> LeftInPeace(Edits(u), n)
  {
    n := Before(u.updatedProperties, g) + i;
    PropertyAt(u, g, i);
    PropertyInPeace(u, g, i);
  }

  /** Nothing later in the item comes near the path of a property. */
  ghost predicate NothingLater(u: UpdateItem, g: nat, i: nat)
    requires g < |u.updatedProperties| && i < |u.updatedProperties[g]|
  {
    Parse(u.updatedProperties[g][i].0).Some? ==>
      var p := Parse(u.updatedProperties[g][i].0).value;
      LaterPropertiesApart(p, u, g, i) && RemovalsApart(p, u, 0) && BlobsApart(p, u, 0)
  }

  lemma PropertyAt(u: UpdateItem, g: nat, i: nat)
    requires g < |u.updatedProperties| && i < |u.updatedProperties[g]|
    ensures Before(u.updatedProperties, g) + i < |Edits(u)|
    ensures Edits(u)[Before(u.updatedProperties, g) + i]
            == Assign(u.updatedProperties[g][i].0, u.updatedProperties[g][i].1)
  {
    AtProperty(u, g, i);
  }

  lemma PropertyInPeace(u: UpdateItem, g: nat, i: nat)
    requires g < |u.updatedProperties| && i < |u.updatedProperties[g]|
    requires Before(u.updatedProperties, g) + i < |Edits(u)|
    requires Edits(u)[Before(u.updatedProperties, g) + i].path == u.updatedProperties[g][i].0
    ensures NothingLater(u, g, i) ==> LeftInPeace(Edits(u), Before(u.updatedProperties, g) + i)
  {
    var path := u.updatedProperties[g][i].0;
    if NothingLater(u, g, i) && Parse(path).Some? {
      forall m | Before(u.updatedProperties, g) + i < m < |Edits(u)|
        ensures ApartEdit(Parse(path).value, Edits(u)[m])
      {
        AfterProperty(Parse(path).value, u, g, i, m);
      }
    }
  }

  lemma RemovedIsUndefined(doc: Json, u: UpdateItem, i: nat, after: Json, load: BlobLoader)
    requires ApplyEdits(doc, Edits(u), load) == Ok(after) && i < |u.removedProperties|
    ensures RemovedUndefined(u, i, after)
  {
    var n := |AllAssignments(u.updatedProperties)| + i;
    AtRemoval(u, i);
    EditParses(doc, Edits(u), n, after, load);
    var p := Parse(u.removedProperties[i]).value;
    if p != [] && p[|p| - 1].Key? && RemovalsApart(p, u, i + 1) && BlobsApart(p, u, 0) {
      forall m | n < m < |Edits(u)| ensures ApartEdit(p, Edits(u)[m]) {
        AfterRemoval(p, u, i + 1, m);
      }
      EditVisible(doc, Edits(u), n, after, load);
      KeyAtEnd(p);
      ReadStep(after, p[..|p| - 1], p[|p| - 1]);
    }
  }

  lemma BlobIsRead(doc: Json, u: UpdateItem, i: nat, after: Json, load: BlobLoader)
    requires ApplyEdits(doc, Edits(u), load) == Ok(after) && i < |u.updatedBlobs|
    ensures BlobReads(u, i, after, load)
  {
    var n := |AllAssignments(u.updatedProperties)| + |u.removedProperties| + i;
    AtBlob(u, i);
    EditParses(doc, Edits(u), n, after, load);
    var p := Parse(u.updatedBlobs[i].0).value;
    if Readable(p) && BlobsApart(p, u, i + 1) {
      forall m | n < m < |Edits(u)| ensures ApartEdit(p, Edits(u)[m]) {
        AfterBlob(p, u, i + 1, m);
      }
      EditVisible(doc, Edits(u), n, after, load);
    }
  }

  lemma {:induction false} EditParses(doc: Json, edits: seq<Edit>, n: nat, after: Json, load: BlobLoader)
    requires ApplyEdits(doc, edits, load) == Ok(after) && n < |edits|
    ensures Parse(edits[n].path).Some? && (edits[n].Attach? ==> load(edits[n].url).Some?)
    decreases |edits|
  {
    if n < |edits| - 1 {
      EditParses(doc, edits[..|edits| - 1], n, ApplyEdits(doc, edits[..|edits| - 1], load).value, load);
    }
  }

  lemma NoneNear(q: Path, u: UpdateItem, n: nat)
    requires n < |Edits(u)| && AllApart(q, u)
    ensures ApartEdit(q, Edits(u)[n])
  {
    EditFrom(u, n);
    if n < |AllAssignments(u.updatedProperties)| {
      NoAssignmentNear(q, u, n);
    }
  }

  lemma NoAssignmentNear(q: Path, u: UpdateItem, n: nat)
    requires n < |AllAssignments(u.updatedProperties)| && AllApart(q, u)
    ensures ApartEdit(q, AllAssignments(u.updatedProperties)[n])
  {
    var g, i := FindAssignment(u.updatedProperties, n);
  }

  lemma OtherIsKept(doc: Json, u: UpdateItem, after: Json, q: Path, load: BlobLoader)
    requires ApplyEdits(doc, Edits(u), load) == Ok(after)
    requires Read(doc, q).Some? && AllApart(q, u)
    ensures Read(after, q) == Read(doc, q)
  {
    forall n | 0 <= n < |Edits(u)| ensures ApartEdit(q, Edits(u)[n]) {
      NoneNear(q, u, n);
    }
    EditsFrame(doc, Edits(u), after, q, load);
  }

  /** The edits of an item that does not throw do what its fields say. */
  lemma EditsCarry(doc: Json, u: UpdateItem, after: Json, load: BlobLoader)
    requires ApplyEdits(doc, Edits(u), load) == Ok(after)
    ensures Carries(u, doc, after, load)
  {
    forall g, i | 0 <= g < |u.updatedProperties| && 0 <= i < |u.updatedProperties[g]| ensures PropertyReads(u, g, i, after) {
      PropertyIsRead(doc, u, g, i, after, load);
    }
    forall i | 0 <= i < |u.removedProperties| ensures RemovedUndefined(u, i, after) {
      RemovedIsUndefined(doc, u, i, after, load);
    }
    forall i | 0 <= i < |u.updatedBlobs| ensures BlobReads(u, i, after, load) {
      BlobIsRead(doc, u, i, after, load);
    }
    forall q: Path | Read(doc, q).Some? && AllApart(q, u) ensures Read(after, q) == Read(doc, q) {
      OtherIsKept(doc, u, after, q, load);
    }
  }

  lemma EffectCarries(doc: Option<Json>, u: UpdateItem, load: BlobLoader)
    requires u.kind.Update? && Effect(doc, u, load).Ok?
    ensures Effect(doc, u, load).value.Some? && Carries(u, Start(doc), Effect(doc, u, load).value.value, load)
  {
    EditsCarry(Start(doc), u, Effect(doc, u, load).value.value, load);
  }

  // ---------------------------------------------------------------- when an update throws

  /** The item up to one of its properties, without it and what comes after. */
  function UpToProperty(u: UpdateItem, g: nat, i: nat): UpdateItem
    requires g < |u.updatedProperties| && i < |u.updatedProperties[g]|
  {
    u.(updatedProperties := u.updatedProperties[..g] + [u.updatedProperties[g][..i]], removedProperties := [], updatedBlobs := [])
  }

  function UpToRemoval(u: UpdateItem, i: nat): UpdateItem
    requires i < |u.removedProperties|
  {
    u.(removedProperties := u.removedProperties[..i], updatedBlobs := [])
  }

  function UpToBlob(u: UpdateItem, i: nat): UpdateItem
    requires i < |u.updatedBlobs|
  {
    u.(updatedBlobs := u.updatedBlobs[..i])
  }

  /** The path cannot be written in the document that the item made so far: it is no key path, or
      the write is stopped. */
  predicate Refuses(before: Result<Option<Json>, Error>, path: string, value: Option<Json>) {
    before.Ok? && before.value.Some? && (Parse(path).None? || !Write(before.value.value, Parse(path).value, value).ok)
  }

  predicate PropertyThrows(doc: Option<Json>, u: UpdateItem, g: nat, i: nat, load: BlobLoader)
    requires g < |u.updatedProperties| && i < |u.updatedProperties[g]|
  {
    Refuses(Effect(doc, UpToProperty(u, g, i), load), u.updatedProperties[g][i].0, Some(u.updatedProperties[g][i].1))
  }

  predicate RemovalThrows(doc: Option<Json>, u: UpdateItem, i: nat, load: BlobLoader)
    requires i < |u.removedProperties|
  {
    Refuses(Effect(doc, UpToRemoval(u, i), load), u.removedProperties[i], None)
  }

  predicate BlobThrows(doc: Option<Json>, u: UpdateItem, i: nat, load: BlobLoader)
    requires i < |u.updatedBlobs|
  {
    var before := Effect(doc, UpToBlob(u, i), load);
    before.Ok? && (load(u.updatedBlobs[i].1).None? || Refuses(before, u.updatedBlobs[i].0, load(u.updatedBlobs[i].1)))
  }

  ghost predicate SomePropertyThrows(doc: Option<Json>, u: UpdateItem, load: BlobLoader) {
    exists g, i | 0 <= g < |u.updatedProperties| && 0 <= i < |u.updatedProperties[g]| :: PropertyThrows(doc, u, g, i, load)
  }

  ghost predicate SomeRemovalThrows(doc: Option<Json>, u: UpdateItem, load: BlobLoader) {
    exists i | 0 <= i < |u.removedProperties| :: RemovalThrows(doc, u, i, load)
  }

  ghost predicate SomeBlobThrows(doc: Option<Json>, u: UpdateItem, load: BlobLoader) {
    exists i | 0 <= i < |u.updatedBlobs| :: BlobThrows(doc, u, i, load)
  }

  /** An update throws exactly when one of its paths cannot be written where its turn comes, or a
      blob cannot be loaded. */
  lemma ThrowsWhen(doc: Option<Json>, u: UpdateItem, load: BlobLoader)
    requires u.kind.Update?
    ensures Effect(doc, u, load).Err?
            <==> SomePropertyThrows(doc, u, load) || SomeRemovalThrows(doc, u, load) || SomeBlobThrows(doc, u, load)
  {
    if Effect(doc, u, load).Err? {
      var n := FirstFailing(Start(doc), Edits(u), load);
      FailsInField(doc, u, n, load);
    } else {
      forall n: nat ensures !FailsAt(doc, u, n, load) {
        EditFails(doc, u, n, load);
      }
      NoFieldThrows(doc, u, load);
    }
  }

  lemma FailsInField(doc: Option<Json>, u: UpdateItem, n: nat, load: BlobLoader)
    requires u.kind.Update? && FailsAt(doc, u, n, load)
    ensures SomePropertyThrows(doc, u, load) || SomeRemovalThrows(doc, u, load) || SomeBlobThrows(doc, u, load)
  {
    var a, r := |AllAssignments(u.updatedProperties)|, |u.removedProperties|;
    if n < a {
      FailsInProperties(doc, u, n, load);
    } else if n < a + r {
      var i := n - a;
      assert a + i == n;
      FailsAtRemoval(doc, u, i, load);
    } else {
      EditFrom(u, n);
      var i := n - a - r;
      assert a + r + i == n;
      FailsAtBlob(doc, u, i, load);
    }
  }

  lemma FailsInProperties(doc: Option<Json>, u: UpdateItem, n: nat, load: BlobLoader)
    requires u.kind.Update? && FailsAt(doc, u, n, load) && n < |AllAssignments(u.updatedProperties)|
    ensures SomePropertyThrows(doc, u, load)
  {
    var g, i := FindStart(u, n);
    PropertyFails(doc, u, g, i, n, load);
  }

  lemma FindStart(u: UpdateItem, n: nat) returns (g: nat, i: nat)
    requires n < |AllAssignments(u.updatedProperties)|
    ensures g < |u.updatedProperties| && i < |u.updatedProperties[g]| && StandsAt(u, g, i, n)
  {
    g, i := FindGroup(u.updatedProperties, n);
    AtProperty(u, g, i);
  }

  lemma FailsAtRemoval(doc: Option<Json>, u: UpdateItem, i: nat, load: BlobLoader)
    requires u.kind.Update? && i < |u.removedProperties|
    requires FailsAt(doc, u, |AllAssignments(u.updatedProperties)| + i, load)
    ensures SomeRemovalThrows(doc, u, load)
  {
    RemovalFails(doc, u, i, load);
  }

  lemma FailsAtBlob(doc: Option<Json>, u: UpdateItem, i: nat, load: BlobLoader)
    requires u.kind.Update? && i < |u.updatedBlobs|
    requires FailsAt(doc, u, |AllAssignments(u.updatedProperties)| + |u.removedProperties| + i, load)
    ensures SomeBlobThrows(doc, u, load)
  {
    BlobFails(doc, u, i, load);
  }

  lemma NoFieldThrows(doc: Option<Json>, u: UpdateItem, load: BlobLoader)
    requires u.kind.Update? && forall n: nat :: !FailsAt(doc, u, n, load)
    ensures !SomePropertyThrows(doc, u, load) && !SomeRemovalThrows(doc, u, load) && !SomeBlobThrows(doc, u, load)
  {
    forall g, i | 0 <= g < |u.updatedProperties| && 0 <= i < |u.updatedProperties[g]|
      ensures !PropertyThrows(doc, u, g, i, load)
    {
      AtProperty(u, g, i);
      PropertyFails(doc, u, g, i, Before(u.updatedProperties, g) + i, load);
    }
    forall i | 0 <= i < |u.removedProperties| ensures !RemovalThrows(doc, u, i, load) {
      RemovalFails(doc, u, i, load);
    }
    forall i | 0 <= i < |u.updatedBlobs| ensures !BlobThrows(doc, u, i, load) {
      BlobFails(doc, u, i, load);
    }
  }

  /** Edit `n` of the item is the first that throws. */
  predicate FailsAt(doc: Option<Json>, u: UpdateItem, n: nat, load: BlobLoader) {
    && n < |Edits(u)| && ApplyEdits(Start(doc), Edits(u)[..n], load).Ok?
    && ApplyEdit(ApplyEdits(Start(doc), Edits(u)[..n], load).value, Edits(u)[n], load).Err?
  }

  /** In terms of the item up to that edit. */
  lemma FailsAfter(doc: Option<Json>, less: UpdateItem, u: UpdateItem, n: nat, load: BlobLoader)
    requires less.kind.Update? && n < |Edits(u)| && Edits(u)[..n] == Edits(less)
    ensures var before := Effect(doc, less, load);
            && (before.Ok? ==> before.value.Some?)
            && (FailsAt(doc, u, n, load) <==> before.Ok? && ApplyEdit(before.value.value, Edits(u)[n], load).Err?)
  {
  }

  /** The edit of a property is number `n`, and those before it are the edits of the item up to it. */
  predicate StandsAt(u: UpdateItem, g: nat, i: nat, n: nat)
    requires g < |u.updatedProperties| && i < |u.updatedProperties[g]|
  {
    && n < |Edits(u)| && Edits(u)[..n] == Edits(UpToProperty(u, g, i))
    && Edits(u)[n] == Assign(u.updatedProperties[g][i].0, u.updatedProperties[g][i].1)
  }

  lemma PropertyFails(doc: Option<Json>, u: UpdateItem, g: nat, i: nat, n: nat, load: BlobLoader)
    requires u.kind.Update? && g < |u.updatedProperties| && i < |u.updatedProperties[g]| && StandsAt(u, g, i, n)
    ensures PropertyThrows(doc, u, g, i, load) <==> FailsAt(doc, u, n, load)
    ensures PropertyThrows(doc, u, g, i, load) ==> SomePropertyThrows(doc, u, load)
  {
    FailsAfter(doc, UpToProperty(u, g, i), u, n, load);
  }

  lemma RemovalFails(doc: Option<Json>, u: UpdateItem, i: nat, load: BlobLoader)
    requires u.kind.Update? && i < |u.removedProperties|
    ensures RemovalThrows(doc, u, i, load) <==> FailsAt(doc, u, |AllAssignments(u.updatedProperties)| + i, load)
  {
    AtRemoval(u, i);
    FailsAfter(doc, UpToRemoval(u, i), u, |AllAssignments(u.updatedProperties)| + i, load);
  }

  lemma BlobFails(doc: Option<Json>, u: UpdateItem, i: nat, load: BlobLoader)
    requires u.kind.Update? && i < |u.updatedBlobs|
    ensures BlobThrows(doc, u, i, load)
            <==> FailsAt(doc, u, |AllAssignments(u.updatedProperties)| + |u.removedProperties| + i, load)
  {
    AtBlob(u, i);
    FailsAfter(doc, UpToBlob(u, i), u, |AllAssignments(u.updatedProperties)| + |u.removedProperties| + i, load);
  }

  lemma EditFails(doc: Option<Json>, u: UpdateItem, n: nat, load: BlobLoader)
    requires u.kind.Update? && Effect(doc, u, load).Ok?
    ensures !FailsAt(doc, u, n, load)
  {
    if n < |Edits(u)| {
      NoneFails(Start(doc), Edits(u), n, load);
    }
  }

  lemma AtProperty(u: UpdateItem, g: nat, i: nat)
    requires g < |u.updatedProperties| && i < |u.updatedProperties[g]|
    ensures StandsAt(u, g, i, Before(u.updatedProperties, g) + i)
  {
    GroupStart(u.updatedProperties, g, i);
    var n := Before(u.updatedProperties, g) + i;
    EditsStart(u, n);
    EditsStart(UpToProperty(u, g, i), n);
    assert Edits(UpToProperty(u, g, i)) == Edits(UpToProperty(u, g, i))[..n];
  }

  lemma EditsStart(u: UpdateItem, n: nat)
    requires n <= |AllAssignments(u.updatedProperties)|
    ensures n <= |Edits(u)| && Edits(u)[..n] == AllAssignments(u.updatedProperties)[..n]
    ensures n < |AllAssignments(u.updatedProperties)| ==> Edits(u)[n] == AllAssignments(u.updatedProperties)[n]
  {
  }

  lemma AtRemoval(u: UpdateItem, i: nat)
    requires i < |u.removedProperties|
    ensures var n := |AllAssignments(u.updatedProperties)| + i;
            n < |Edits(u)| && Edits(u)[..n] == Edits(UpToRemoval(u, i)) && Edits(u)[n] == Remove(u.removedProperties[i])
  {
    assert Removals(u.removedProperties)[..i] == Removals(u.removedProperties[..i]);
  }

  lemma AtBlob(u: UpdateItem, i: nat)
    requires i < |u.updatedBlobs|
    ensures var n := |AllAssignments(u.updatedProperties)| + |u.removedProperties| + i;
            && n < |Edits(u)| && Edits(u)[..n] == Edits(UpToBlob(u, i))
            && Edits(u)[n] == Attach(u.updatedBlobs[i].0, u.updatedBlobs[i].1)
  {
    assert Attachments(u.updatedBlobs)[..i] == Attachments(u.updatedBlobs[..i]);
  }

  lemma {:induction false} FirstFailing(doc: Json, edits: seq<Edit>, load: BlobLoader) returns (n: nat)
    requires ApplyEdits(doc, edits, load).Err?
    ensures n < |edits| && ApplyEdits(doc, edits[..n], load).Ok?
    ensures ApplyEdit(ApplyEdits(doc, edits[..n], load).value, edits[n], load).Err?
  {
    n := |edits| - 1;
    if ApplyEdits(doc, edits[..n], load).Err? {
      var most := edits[..n];
      n := FirstFailing(doc, most, load);
      assert most[..n] == edits[..n];
    }
  }

  lemma {:induction false} NoneFails(doc: Json, edits: seq<Edit>, n: nat, load: BlobLoader)
    requires ApplyEdits(doc, edits, load).Ok? && n < |edits|
    ensures ApplyEdits(doc, edits[..n], load).Ok?
    ensures ApplyEdit(ApplyEdits(doc, edits[..n], load).value, edits[n], load).Ok?
    decreases |edits|
  {
    if n < |edits| - 1 {
      var most := edits[..|edits| - 1];
      NoneFails(doc, most, n, load);
      assert most[..n] == edits[..n];
    }
  }

  // ---------------------------------------------------------------- editing in place

  /** Writes one value through a cached key path; the error is the one thrown. */
  method WritePath(cache: KeyPathCache, doc: Document, path: string, value: Option<Json>) returns (error: Option<Error>)
    requires cache.Valid()
    modifies cache, doc
    ensures cache.Valid()
    ensures match ApplyPatch(old(doc.body), path, value)
            case Ok(d) => error == None && doc.body == d
            case Err(e) => error == Some(e)
  {
    var keyPath := cache.Lookup(path);
    if keyPath.None? {
      return Some(InvalidKeyPath);
    }
    var ok := keyPath.value.WriteValue(doc, value);
    error := if ok then None else Some(TypeMismatch);
  }

  /** The edits have all been made in place, or the first one that threw ended the list. */
  ghost predicate Done(start: Json, edits: seq<Edit>, body: Json, error: Option<Error>, load: BlobLoader) {
    match ApplyEdits(start, edits, load)
    case Ok(d) => error == None && body == d
    case Err(e) => error == Some(e)
  }

  /** One more edit of a list, which ends the list if it throws. */
  lemma OneMore(start: Json, edits: seq<Edit>, n: nat, before: Json, after: Json, error: Option<Error>, load: BlobLoader)
    requires n < |edits| && Done(start, edits[..n], before, None, load)
    requires match ApplyEdit(before, edits[n], load)
             case Ok(d) => error == None && after == d
             case Err(e) => error == Some(e)
    ensures Done(start, edits[..n + 1], after, error, load)
    ensures error.Some? ==> Done(start, edits, after, error, load)
  {
    assert edits[..n + 1][..n] == edits[..n];
    FailsEarly(start, edits, n + 1, after, error, load);
  }

  /** An edit that throws ends the list. */
  lemma FailsEarly(start: Json, edits: seq<Edit>, n: nat, body: Json, error: Option<Error>, load: BlobLoader)
    requires n <= |edits| && Done(start, edits[..n], body, error, load)
    ensures error.Some? ==> Done(start, edits, body, error, load)
  {
    assert edits == edits[..n] + edits[n..];
    ApplyAppended(start, edits[..n], edits[n..], load);
  }

  /** One list of edits after another. */
  lemma InTurn(start: Json, first: seq<Edit>, middle: Json, second: seq<Edit>, body: Json,
               error: Option<Error>, load: BlobLoader)
    requires Done(start, first, middle, None, load) && Done(middle, second, body, error, load)
    ensures Done(start, first + second, body, error, load)
  {
    ApplyAppended(start, first, second, load);
  }

  method AssignProperties(cache: KeyPathCache, doc: Document, props: seq<(string, Json)>, ghost load: BlobLoader)
    returns (error: Option<Error>)
    requires cache.Valid()
    modifies cache, doc
    ensures cache.Valid()
    ensures Done(old(doc.body), Assignments(props), doc.body, error, load)
  {
    ghost var start, edits := doc.body, Assignments(props);
    for i := 0 to |props|
      invariant cache.Valid() && Done(start, edits[..i], doc.body, None, load)
    {
      ghost var before := doc.body;
      error := WritePath(cache, doc, props[i].0, Some(props[i].1));
      OneMore(start, edits, i, before, doc.body, error, load);
      if error.Some? {
        return;
      }
    }
    assert edits[..|props|] == edits;
    error := None;
  }

  method AssignAllProperties(cache: KeyPathCache, doc: Document, groups: seq<seq<(string, Json)>>, ghost load: BlobLoader)
    returns (error: Option<Error>)
    requires cache.Valid()
    modifies cache, doc
    ensures cache.Valid()
    ensures Done(old(doc.body), AllAssignments(groups), doc.body, error, load)
  {
    ghost var start := doc.body;
    for g := 0 to |groups|
      invariant cache.Valid() && Done(start, AllAssignments(groups[..g]), doc.body, None, load)
    {
      ghost var before := doc.body;
      error := AssignProperties(cache, doc, groups[g], load);
      assert groups[..g + 1][..g] == groups[..g];
      InTurn(start, AllAssignments(groups[..g]), before, Assignments(groups[g]), doc.body, error, load);
      if error.Some? {
        FailedEarly(start, groups, g + 1, doc.body, error, load);
        return;
      }
    }
    assert groups[..|groups|] == groups;
    error := None;
  }

  lemma {:induction false} AllAssignmentsSplit(groups: seq<seq<(string, Json)>>, g: nat)
    requires g <= |groups|
    ensures AllAssignments(groups[..g]) <= AllAssignments(groups)
    decreases |groups|
  {
    if g == |groups| {
      assert groups[..g] == groups;
    } else {
      AllAssignmentsSplit(groups[..|groups| - 1], g);
      assert groups[..|groups| - 1][..g] == groups[..g];
    }
  }

  lemma FailedEarly(start: Json, groups: seq<seq<(string, Json)>>, g: nat, body: Json,
                    error: Option<Error>, load: BlobLoader)
    requires g <= |groups| && error.Some?
    requires Done(start, AllAssignments(groups[..g]), body, error, load)
    ensures Done(start, AllAssignments(groups), body, error, load)
  {
    AllAssignmentsSplit(groups, g);
    var first, all := AllAssignments(groups[..g]), AllAssignments(groups);
    assert all[..|first|] == first;
    FailsEarly(start, all, |first|, body, error, load);
  }

  method RemoveProperties(cache: KeyPathCache, doc: Document, paths: seq<string>, ghost load: BlobLoader)
    returns (error: Option<Error>)
    requires cache.Valid()
    modifies cache, doc
    ensures cache.Valid()
    ensures Done(old(doc.body), Removals(paths), doc.body, error, load)
  {
    ghost var start, edits := doc.body, Removals(paths);
    for i := 0 to |paths|
      invariant cache.Valid() && Done(start, edits[..i], doc.body, None, load)
    {
      ghost var before := doc.body;
      error := WritePath(cache, doc, paths[i], None);
      OneMore(start, edits, i, before, doc.body, error, load);
      if error.Some? {
        return;
      }
    }
    assert edits[..|paths|] == edits;
    error := None;
  }

  method AttachBlobs(cache: KeyPathCache, doc: Document, blobs: seq<(string, string)>, load: BlobLoader)
    returns (error: Option<Error>)
    requires cache.Valid()
    modifies cache, doc
    ensures cache.Valid()
    ensures Done(old(doc.body), Attachments(blobs), doc.body, error, load)
  {
    ghost var start, edits := doc.body, Attachments(blobs);
    for i := 0 to |blobs|
      invariant cache.Valid() && Done(start, edits[..i], doc.body, None, load)
    {
      ghost var before := doc.body;
      var blob := load(blobs[i].1);
      if blob.None? {
        error := Some(BlobUnavailable);
      } else {
        error := WritePath(cache, doc, blobs[i].0, blob);
      }
      OneMore(start, edits, i, before, doc.body, error, load);
      if error.Some? {
        return;
      }
    }
    assert edits[..|blobs|] == edits;
    error := None;
  }

  /** The property, removal and blob loops of an update, run on the document in place. */
  method ApplyUpdate(cache: KeyPathCache, doc: Document, u: UpdateItem, load: BlobLoader) returns (error: Option<Error>)
    requires cache.Valid()
    modifies cache, doc
    ensures cache.Valid()
    ensures Done(old(doc.body), Edits(u), doc.body, error, load)
    ensures error == None ==> Carries(u, old(doc.body), doc.body, load)
  {
    ghost var start := doc.body;
    ghost var a, r, b := AllAssignments(u.updatedProperties), Removals(u.removedProperties), Attachments(u.updatedBlobs);
    error := AssignAllProperties(cache, doc, u.updatedProperties, load);
    if error.Some? {
      ApplyAppended(start, a, r, load);
      ApplyAppended(start, a + r, b, load);
      return;
    }
    ghost var withProperties := doc.body;
    error := RemoveProperties(cache, doc, u.removedProperties, load);
    InTurn(start, a, withProperties, r, doc.body, error, load);
    if error.Some? {
      ApplyAppended(start, a + r, b, load);
      return;
    }
    ghost var removed := doc.body;
    error := AttachBlobs(cache, doc, u.updatedBlobs, load);
    InTurn(start, a + r, removed, b, doc.body, error, load);
    if error == None {
      EditsCarry(start, u, doc.body, load);
    }
  }
}

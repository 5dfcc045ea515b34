/** Reading, setting and deleting at a key path inside a document. The functions give the effect
    of a call as a value; the `KeyPath` class at the end does it in place, as the server does. */
module KeyPathAccess {
  import opened Wrappers
  import opened Json
  import opened KeyPathSyntax

  type Path = seq<Component>

  // ---------------------------------------------------------------- reading

  /** The value in slot `c` of `cur`; None stands for `undefined`. */
  function Child(cur: Json, c: Component): Option<Json> {
    match c
    case Key(k) => if cur.Obj? && k in cur.fields then Some(cur.fields[k]) else None
    case Index(n) => if cur.Arr? && 0 <= n < |cur.elems| then Some(cur.elems[n]) else None
  }

  function Read(root: Json, path: Path): Option<Json> {
    if path == [] then Some(root)
    else
      match Child(root, path[0])
      case None => None
      case Some(child) => Read(child, path[1..])
  }

  function ReadFrom(root: Option<Json>, path: Path): Option<Json> {
    if root.None? then None else Read(root.value, path)
  }

  // ---------------------------------------------------------------- writing

  datatype Written = Written(ok: bool, doc: Json)

  function MakeCollection(c: Component): Json {
    if c.Key? then Obj(map[]) else Arr([])
  }

  /** The array padded with nulls up to length `n`. */
  function Pad(elems: seq<Json>, n: int): (r: seq<Json>)
    ensures |r| == if |elems| < n then n else |elems|
    ensures forall i | 0 <= i < |elems| :: r[i] == elems[i]
    ensures forall i | |elems| <= i < |r| :: r[i] == Null
  {
    if |elems| < n then elems + seq(n - |elems|, _ => Null) else elems
  }

  /** What `splice(n, 1)` leaves: a negative start counts from the end, stopping at the front. */
  function Splice(elems: seq<Json>, n: int): seq<Json> {
    var start := if n >= 0 then n else if |elems| + n >= 0 then |elems| + n else 0;
    if start < |elems| then elems[..start] + elems[start + 1..] else elems
  }

  /** Does `cur` have the type that component `c` addresses? */
  predicate Fits(cur: Json, c: Component) {
    if c.Key? then cur.Obj? else cur.Arr?
  }

  /** The final step of a write: set or delete slot `c` of `cur`. Assigning to a negative index
      makes an array property, which is no element: the elements stay as they are. */
  function WriteLast(cur: Json, c: Component, value: Option<Json>): Written {
    if !Fits(cur, c) then Written(false, cur)
    else
      match c
      case Key(k) =>
        Written(true, if value.Some? then Obj(cur.fields[k := value.value]) else Obj(cur.fields - {k}))
      case Index(n) =>
        var elems := Pad(cur.elems, n);
        if value.None? then Written(true, Arr(Splice(elems, n)))
        else if n < 0 then Written(true, cur)
        else if n < |elems| then Written(true, Arr(elems[n := value.value]))
        else Written(true, Arr(elems + [value.value]))
  }

  /** An inner step: `cur` after making sure that slot `c` holds something for the component
      `next`. The slot can still be undefined, when an index is negative or equals the length. */
  function Enter(cur: Json, c: Component, next: Component): Json
    requires Fits(cur, c)
  {
    match c
    case Key(k) => if k in cur.fields then cur else Obj(cur.fields[k := MakeCollection(next)])
    case Index(n) => if |cur.elems| >= n then cur else Arr(Pad(cur.elems, n) + [MakeCollection(next)])
  }

  /** `cur` with the existing slot `c` replaced. */
  function SetChild(cur: Json, c: Component, v: Json): (r: Json)
    requires Child(cur, c).Some?
    ensures Child(r, c) == Some(v)
  {
    match c
    case Key(k) => Obj(cur.fields[k := v])
    case Index(n) => Arr(cur.elems[n := v])
  }

  /** The result and the document after writing `value` (None deletes) at `path`. */
  function Write(cur: Json, path: Path, value: Option<Json>): Written
    decreases |path|
  {
    if path == [] then Written(true, cur)
    else if |path| == 1 then WriteLast(cur, path[0], value)
    else if !Fits(cur, path[0]) then Written(false, cur)
    else
      var box := Enter(cur, path[0], path[1]);
      match Child(box, path[0])
      case None => Written(false, box)
      case Some(child) =>
        var inner := Write(child, path[1..], value);
        Written(inner.ok, SetChild(box, path[0], inner.doc))
  }

  // ---------------------------------------------------------------- replacing a position

  /** `root` with the value at an existing position replaced: an assignment through a cursor. */
  function PutAt(root: Json, path: Path, v: Json): Json
    requires Read(root, path).Some?
  {
    if path == [] then v
    else SetChild(root, path[0], PutAt(Child(root, path[0]).value, path[1..], v))
  }

  lemma {:induction false} PutThenRead(root: Json, path: Path, v: Json)
    requires Read(root, path).Some?
    ensures Read(PutAt(root, path, v), path) == Some(v)
  {
    if path != [] {
      PutThenRead(Child(root, path[0]).value, path[1..], v);
    }
  }

  lemma {:induction false} PutSame(root: Json, path: Path)
    requires Read(root, path).Some?
    ensures PutAt(root, path, Read(root, path).value) == root
  {
    if path != [] {
      PutSame(Child(root, path[0]).value, path[1..]);
      match path[0]
      case Key(k) => assert root.fields[k := root.fields[k]] == root.fields;
      case Index(n) => assert root.elems[n := root.elems[n]] == root.elems;
    }
  }

  lemma SetChildTwice(cur: Json, c: Component, v: Json, w: Json)
    requires Child(cur, c).Some?
    ensures SetChild(SetChild(cur, c, v), c, w) == SetChild(cur, c, w)
  {
    match c
    case Key(k) => assert cur.fields[k := v][k := w] == cur.fields[k := w];
    case Index(n) => assert cur.elems[n := v][n := w] == cur.elems[n := w];
  }

  lemma {:induction false} PutTwice(root: Json, path: Path, v: Json, w: Json)
    requires Read(root, path).Some?
    ensures Read(PutAt(root, path, v), path).Some?
    ensures PutAt(PutAt(root, path, v), path, w) == PutAt(root, path, w)
  {
    PutThenRead(root, path, v);
    if path != [] {
      var child := Child(root, path[0]).value;
      PutTwice(child, path[1..], v, w);
      SetChildTwice(root, path[0], PutAt(child, path[1..], v), PutAt(child, path[1..], w));
    }
  }

  lemma {:induction false} ReadAppend(root: Json, at: Path, rest: Path)
    ensures Read(root, at + rest) == ReadFrom(Read(root, at), rest)
  {
    if at == [] {
      assert at + rest == rest;
    } else {
      assert (at + rest)[1..] == at[1..] + rest;
      if Child(root, at[0]).Some? {
        ReadAppend(Child(root, at[0]).value, at[1..], rest);
      }
    }
  }

  /** Replacing one level further down is replacing the container with its slot set. */
  lemma {:induction false} PutAppend(root: Json, at: Path, c: Component, v: Json)
    requires Read(root, at).Some? && Child(Read(root, at).value, c).Some?
    ensures Read(root, at + [c]).Some?
    ensures PutAt(root, at + [c], v) == PutAt(root, at, SetChild(Read(root, at).value, c, v))
  {
    ReadAppend(root, at, [c]);
    if at == [] {
      assert at + [c] == [c];
      assert [c][1..] == [];
    } else {
      assert (at + [c])[1..] == at[1..] + [c];
      PutAppend(Child(root, at[0]).value, at[1..], c, v);
    }
  }

  /** Writing below an existing position is writing to the value there and replacing it. */
  lemma {:induction false} WriteBelow(root: Json, at: Path, rest: Path, value: Option<Json>)
    requires Read(root, at).Some? && rest != []
    ensures var inner := Write(Read(root, at).value, rest, value);
            Write(root, at + rest, value) == Written(inner.ok, PutAt(root, at, inner.doc))
  {
    if at == [] {
      assert at + rest == rest;
    } else {
      assert (at + rest)[1..] == at[1..] + rest;
      WriteBelow(Child(root, at[0]).value, at[1..], rest, value);
    }
  }

  // ---------------------------------------------------------------- laws of writing

  ghost predicate Incomparable(p: Path, q: Path) {
    !(p <= q) && !(q <= p)
  }

  lemma IncomparableTails(p: Path, q: Path)
    requires Incomparable(p, q) && p[0] == q[0]
    ensures Incomparable(p[1..], q[1..])
  {
    assert q == [q[0]] + q[1..] && p == [p[0]] + p[1..];
  }

  predicate IsNegative(c: Component) { c.Index? && c.n < 0 }

  /** After a successful write of a defined value, reading the path gives that value. */
  lemma {:induction false} WriteThenRead(root: Json, path: Path, v: Json)
    requires path != [] && !IsNegative(path[|path| - 1])
    requires Write(root, path, Some(v)).ok
    ensures Read(Write(root, path, Some(v)).doc, path) == Some(v)
    decreases |path|
  {
    if |path| == 1 {
      assert path[1..] == [];
    } else {
      var box := Enter(root, path[0], path[1]);
      WriteThenRead(Child(box, path[0]).value, path[1..], v);
    }
  }

  /** What was defined at an incomparable path is still there, even when the write failed. */
  lemma {:induction false} WriteFrame(root: Json, path: Path, v: Json, q: Path)
    requires Incomparable(path, q)
    requires Read(root, q).Some?
    ensures Read(Write(root, path, Some(v)).doc, q) == Read(root, q)
    decreases |path|
  {
    if Fits(root, path[0]) {
      if path[0] == q[0] {
        IncomparableTails(path, q);
        assert |path| > 1;
        var child := Child(root, path[0]).value;
        WriteFrame(child, path[1..], v, q[1..]);
      } else if |path| > 1 {
        var box := Enter(root, path[0], path[1]);
        assert Child(box, q[0]) == Child(root, q[0]);
      } else {
        assert Child(WriteLast(root, path[0], Some(v)).doc, q[0]) == Child(root, q[0]);
      }
    }
  }

  /** Deleting a key, too, leaves what was defined elsewhere, even when it fails. */
  lemma {:induction false} DeleteFrame(root: Json, path: Path, q: Path)
    requires Incomparable(path, q) && path[|path| - 1].Key?
    requires Read(root, q).Some?
    ensures Read(Write(root, path, None).doc, q) == Read(root, q)
    decreases |path|
  {
    if Fits(root, path[0]) {
      if path[0] == q[0] {
        IncomparableTails(path, q);
        assert |path| > 1;
        DeleteFrame(Child(root, path[0]).value, path[1..], q[1..]);
      } else if |path| > 1 {
        assert Child(Enter(root, path[0], path[1]), q[0]) == Child(root, q[0]);
      } else {
        assert Child(WriteLast(root, path[0], None).doc, q[0]) == Child(root, q[0]);
      }
    }
  }

  /** What stops the traversal at a container: the wrong type, or, before the last component, an
      index that is negative or equal to the length. */
  predicate Blocked(cur: Json, c: Component, last: bool) {
    match c
    case Key(_) => !cur.Obj?
    case Index(n) => !cur.Arr? || (!last && (n < 0 || n == |cur.elems|))
  }

  /** The container that component `i` of the path meets: the one there, or a new empty one. */
  function Met(root: Json, path: Path, i: nat): Json
    requires i < |path|
  {
    match Read(root, path[..i])
    case Some(v) => v
    case None => MakeCollection(path[i])
  }

  /** A write succeeds exactly when no container it meets blocks it. */
  lemma {:induction false} WriteSucceeds(root: Json, path: Path, value: Option<Json>)
    ensures Write(root, path, value).ok
            <==> forall i | 0 <= i < |path| :: !Blocked(Met(root, path, i), path[i], i == |path| - 1)
    decreases |path|
  {
    if path != [] {
      assert path[..0] == [];
      assert Met(root, path, 0) == root;
      if |path| > 1 && !Blocked(root, path[0], false) {
        var tail := path[1..];
        var box := Enter(root, path[0], path[1]);
        var child := Child(box, path[0]).value;
        WriteSucceeds(child, tail, value);
        forall i | 0 < i < |path|
          ensures Met(root, path, i) == Met(child, tail, i - 1) && path[i] == tail[i - 1]
        {
          assert path[..i][1..] == tail[..i - 1];
          if Child(root, path[0]).None? {
            assert tail[..i - 1] != [] ==> Child(child, tail[..i - 1][0]).None?;
          }
        }
        assert forall j | 0 <= j < |tail| :: tail[j] == path[j + 1];
        if Write(root, path, value).ok {
          forall i | 0 <= i < |path| ensures !Blocked(Met(root, path, i), path[i], i == |path| - 1) {
            if i > 0 {
              assert !Blocked(Met(child, tail, i - 1), tail[i - 1], i - 1 == |tail| - 1);
            }
          }
        } else {
          var j :| 0 <= j < |tail| && Blocked(Met(child, tail, j), tail[j], j == |tail| - 1);
          assert Blocked(Met(root, path, j + 1), path[j + 1], j + 1 == |path| - 1);
        }
      }
    }
  }

  /** In particular an array that the write itself creates, being empty, cannot be entered at 0. */
  lemma NewArrayBlocks(root: Json, k: string, rest: Path, value: Option<Json>)
    requires rest != [] && root.Obj? && k !in root.fields
    ensures !Write(root, [Key(k), Index(0)] + rest, value).ok
  {
    var path := [Key(k), Index(0)] + rest;
    WriteSucceeds(root, path, value);
    assert path[..1] == [Key(k)] && path[1] == Index(0);
    assert Met(root, path, 1) == Arr([]);
    assert Blocked(Met(root, path, 1), path[1], false);
  }

  // ---------------------------------------------------------------- one step at a time

  /** What a path one longer reads, from what the shorter one reads. */
  lemma ReadStep(root: Json, parent: Path, c: Component)
    ensures Read(root, parent + [c])
            == match (Read(root, parent), c)
               case (Some(Obj(fields)), Key(k)) => if k in fields then Some(fields[k]) else None
               case (Some(Arr(elems)), Index(n)) => if 0 <= n < |elems| then Some(elems[n]) else None
               case _ => None
  {
    ReadAppend(root, parent, [c]);
    if Read(root, parent).Some? {
      assert Read(Read(root, parent).value, [c]) == Child(Read(root, parent).value, c) by {
        assert [c][1..] == [];
      }
    }
  }

  /** Setting or deleting a key of an object that is there. */
  lemma WriteKey(root: Json, parent: Path, fields: map<string, Json>, k: string, value: Option<Json>)
    requires Read(root, parent) == Some(Obj(fields))
    ensures Write(root, parent + [Key(k)], value)
            == Written(true, PutAt(root, parent, Obj(if value.Some? then fields[k := value.value] else fields - {k})))
  {
    WriteBelow(root, parent, [Key(k)], value);
  }

  /** Setting an element of an array that is there, which is padded with nulls as far as needed. */
  lemma WriteElement(root: Json, parent: Path, elems: seq<Json>, n: nat, v: Json)
    requires Read(root, parent) == Some(Arr(elems))
    ensures Write(root, parent + [Index(n)], Some(v)) == Written(true, PutAt(root, parent, Arr(Pad(elems, n + 1)[n := v])))
  {
    WriteBelow(root, parent, [Index(n)], Some(v));
    ElementWritten(elems, n, v);
  }

  lemma ElementWritten(elems: seq<Json>, n: nat, v: Json)
    ensures WriteLast(Arr(elems), Index(n), Some(v)) == Written(true, Arr(Pad(elems, n + 1)[n := v]))
  {
    if n < |elems| {
      assert Pad(elems, n + 1) == elems == Pad(elems, n);
    } else {
      assert Pad(elems, n) + [v] == Pad(elems, n + 1)[n := v];
    }
  }

  /** Deleting an element past the end pads the array up to it. */
  lemma DeletePast(root: Json, parent: Path, elems: seq<Json>, n: nat)
    requires Read(root, parent) == Some(Arr(elems)) && n >= |elems|
    ensures Write(root, parent + [Index(n)], None) == Written(true, PutAt(root, parent, Arr(Pad(elems, n))))
  {
    WriteBelow(root, parent, [Index(n)], None);
  }

  /** A container of the wrong type, or no container at all, stops the write and is left alone. */
  lemma WrongType(root: Json, parent: Path, cur: Json, c: Component, rest: Path, value: Option<Json>)
    requires Read(root, parent) == Some(cur) && if c.Key? then !cur.Obj? else !cur.Arr?
    ensures Write(root, parent + [c] + rest, value) == Written(false, root)
  {
    assert parent + [c] + rest == parent + ([c] + rest);
    WriteBelow(root, parent, [c] + rest, value);
    PutSame(root, parent);
  }

  /** An empty container for the next component: an object for a key, an array for an index. */
  function Empty(next: Component): Json {
    match next
    case Key(_) => Obj(map[])
    case Index(_) => Arr([])
  }

  /** A key missing before the last component gets a new container, in which the write goes on. */
  lemma WriteThroughMissingKey(root: Json, parent: Path, fields: map<string, Json>, k: string, rest: Path, value: Option<Json>)
    requires Read(root, parent) == Some(Obj(fields)) && k !in fields && rest != []
    ensures var inner := Write(Empty(rest[0]), rest, value);
            Write(root, parent + [Key(k)] + rest, value) == Written(inner.ok, PutAt(root, parent, Obj(fields[k := inner.doc])))
  {
    assert parent + [Key(k)] + rest == parent + ([Key(k)] + rest);
    WriteBelow(root, parent, [Key(k)] + rest, value);
    InnerWrite(Obj(fields), Key(k), rest, value);
    var made, inner := Empty(rest[0]), Write(Empty(rest[0]), rest, value);
    assert fields[k := made][k := inner.doc] == fields[k := inner.doc];
  }

  /** An index beyond the length, before the last component, pads the array and puts a new container
      at the end, in which the write goes on. At the very length, and below zero, it fails. */
  lemma WriteThroughElement(root: Json, parent: Path, elems: seq<Json>, n: int, rest: Path, value: Option<Json>)
    requires Read(root, parent) == Some(Arr(elems)) && rest != []
    ensures n > |elems| ==>
              var inner := Write(Empty(rest[0]), rest, value);
              Write(root, parent + [Index(n)] + rest, value)
              == Written(inner.ok, PutAt(root, parent, Arr(Pad(elems, n) + [inner.doc])))
    ensures n < 0 || n == |elems| ==> Write(root, parent + [Index(n)] + rest, value) == Written(false, root)
  {
    var path := [Index(n)] + rest;
    assert parent + [Index(n)] + rest == parent + path;
    WriteBelow(root, parent, path, value);
    if n > |elems| {
      InnerWrite(Arr(elems), Index(n), rest, value);
      var made, inner := Empty(rest[0]), Write(Empty(rest[0]), rest, value);
      assert (Pad(elems, n) + [made])[n := inner.doc] == Pad(elems, n) + [inner.doc];
    } else if n < 0 || n == |elems| {
      assert path[1..] == rest;
      PutSame(root, parent);
    }
  }

  /** The path of the document itself names no slot: writing there does nothing and succeeds. */
  lemma WriteNowhere(root: Json, value: Option<Json>)
    ensures Write(root, [], value) == Written(true, root) && Read(root, []) == Some(root)
  {
  }

  /** Setting a negative index of an array changes no element, and counts as success. */
  lemma WriteNegative(root: Json, parent: Path, elems: seq<Json>, n: int, v: Json)
    requires Read(root, parent) == Some(Arr(elems)) && n < 0
    ensures Write(root, parent + [Index(n)], Some(v)) == Written(true, root)
  {
    WriteBelow(root, parent, [Index(n)], Some(v));
    PutSame(root, parent);
  }

  /** A key that is absent from an object stays absent, and the object stays one, when a path
      incomparable with it is written, or deleted at a key, with success. */
  lemma {:induction false} AbsentKeyFrame(root: Json, parent: Path, k: string, q: Path, value: Option<Json>)
    requires Incomparable(parent + [Key(k)], q)
    requires Read(root, parent).Some? && Read(root, parent).value.Obj? && k !in Read(root, parent).value.fields
    requires value.None? ==> q[|q| - 1].Key?
    requires Write(root, q, value).ok
    ensures var doc := Write(root, q, value).doc;
            Read(doc, parent).Some? && Read(doc, parent).value.Obj? && k !in Read(doc, parent).value.fields
    decreases |parent|
  {
    var path := parent + [Key(k)];
    assert path != [] && q != [];
    if parent == [] {
      assert path == [Key(k)];
      assert q[0] == Key(k) ==> path <= q;
    } else if path[0] == q[0] {
      assert path[1..] == parent[1..] + [Key(k)];
      IncomparableTails(path, q);
      AbsentKeyFrame(Child(root, parent[0]).value, parent[1..], k, q[1..], value);
    } else {
      assert Child(Write(root, q, value).doc, parent[0]) == Child(root, parent[0]) by {
        OtherSlotKept(root, q, value, parent[0]);
      }
    }
  }

  /** A write that succeeds leaves every other slot of the outermost container as it was, if that
      was defined. */
  lemma OtherSlotKept(root: Json, q: Path, value: Option<Json>, c: Component)
    requires q != [] && q[0] != c && Child(root, c).Some? && Write(root, q, value).ok
    requires value.None? ==> q[|q| - 1].Key?
    ensures Child(Write(root, q, value).doc, c) == Child(root, c)
  {
    if |q| > 1 {
      assert Child(Enter(root, q[0], q[1]), c) == Child(root, c);
    }
  }

  // ---------------------------------------------------------------- writes commute

  /** The container with slot `c` set, created by padding if need be. */
  function Place(cur: Json, c: Component, v: Json): Json
    requires Fits(cur, c) && !IsNegative(c)
  {
    match c
    case Key(k) => Obj(cur.fields[k := v])
    case Index(n) => Arr(Pad(cur.elems, n + 1)[n := v])
  }

  /** What a write puts in the first slot of its path, given what that slot held. */
  function Slot(child: Option<Json>, rest: Path, v: Json): Written {
    if rest == [] then Written(true, v)
    else Write(if child.Some? then child.value else MakeCollection(rest[0]), rest, Some(v))
  }

  lemma WriteLastIsPlace(cur: Json, c: Component, v: Json)
    requires !IsNegative(c) && Fits(cur, c)
    ensures WriteLast(cur, c, Some(v)) == Written(true, Place(cur, c, v))
  {
    if c.Index? {
      var n, elems := c.n, cur.elems;
      if n < |elems| {
        assert Pad(elems, n + 1) == elems == Pad(elems, n);
      } else {
        assert Pad(elems, n) + [v] == Pad(elems, n + 1)[n := v];
      }
    }
  }

  lemma EnterIsPlace(cur: Json, c: Component, next: Component, v: Json)
    requires !IsNegative(c) && Fits(cur, c) && Child(Enter(cur, c, next), c).Some?
    ensures Child(cur, c).None? ==> Child(Enter(cur, c, next), c) == Some(MakeCollection(next))
    ensures Child(cur, c).Some? ==> Enter(cur, c, next) == cur
    ensures SetChild(Enter(cur, c, next), c, v) == Place(cur, c, v)
  {
    var made := MakeCollection(next);
    match c
    case Key(k) =>
      if k !in cur.fields {
        assert cur.fields[k := made][k := v] == cur.fields[k := v];
      }
    case Index(n) =>
      var elems := cur.elems;
      if n < |elems| {
        assert Pad(elems, n + 1) == elems;
      } else {
        assert (Pad(elems, n) + [made])[n := v] == Pad(elems, n + 1)[n := v];
      }
  }

  /** An inner step of a write, unfolded. */
  lemma InnerWrite(cur: Json, c: Component, rest: Path, value: Option<Json>)
    requires rest != []
    ensures Write(cur, [c] + rest, value).ok ==> Fits(cur, c) && Child(Enter(cur, c, rest[0]), c).Some?
    ensures Fits(cur, c) && Child(Enter(cur, c, rest[0]), c).Some? ==>
              var box := Enter(cur, c, rest[0]);
              var inner := Write(Child(box, c).value, rest, value);
              Write(cur, [c] + rest, value) == Written(inner.ok, SetChild(box, c, inner.doc))
  {
    assert ([c] + rest)[1..] == rest;
  }

  lemma WriteIsPlace(cur: Json, c: Component, rest: Path, v: Json)
    requires !IsNegative(c) && Write(cur, [c] + rest, Some(v)).ok
    ensures Fits(cur, c) && Slot(Child(cur, c), rest, v).ok
    ensures Write(cur, [c] + rest, Some(v)).doc == Place(cur, c, Slot(Child(cur, c), rest, v).doc)
  {
    if rest == [] {
      assert [c] + rest == [c];
      WriteLastIsPlace(cur, c, v);
    } else {
      InnerWrite(cur, c, rest, Some(v));
      EnterIsPlace(cur, c, rest[0], Write(Child(Enter(cur, c, rest[0]), c).value, rest, Some(v)).doc);
    }
  }

  lemma PlacesCommute(cur: Json, c: Component, v: Json, d: Component, w: Json)
    requires c != d && Fits(cur, c) && Fits(cur, d) && !IsNegative(c) && !IsNegative(d)
    ensures Fits(Place(cur, c, v), d) && Fits(Place(cur, d, w), c)
    ensures Place(Place(cur, c, v), d, w) == Place(Place(cur, d, w), c, v)
  {
    if c.Key? {
      assert cur.fields[c.name := v][d.name := w] == cur.fields[d.name := w][c.name := v];
    } else {
      PadsCommute(cur.elems, c.n, v, d.n, w);
    }
  }

  lemma PadsCommute(elems: seq<Json>, m: nat, v: Json, n: nat, w: Json)
    requires m != n
    ensures Pad(Pad(elems, m + 1)[m := v], n + 1)[n := w] == Pad(Pad(elems, n + 1)[n := w], m + 1)[m := v]
  {
    var one := Pad(Pad(elems, m + 1)[m := v], n + 1)[n := w];
    var two := Pad(Pad(elems, n + 1)[n := w], m + 1)[m := v];
    assert |one| == |two|;
    forall i | 0 <= i < |one| ensures one[i] == two[i] {
      assert i != m && i != n ==> one[i] == if i < |elems| then elems[i] else Null;
    }
  }

  /** Setting one slot leaves the others, except that padding can turn undefined into null. */
  lemma PlaceKeepsOthers(cur: Json, c: Component, v: Json, d: Component)
    requires c != d && Fits(cur, c) && !IsNegative(c)
    ensures var was, now := Child(cur, d), Child(Place(cur, c, v), d);
            now == was || (was == None && now == Some(Null))
  {
  }

  /** A later write sees the same slot as if it came first: null in its way would have failed it. */
  lemma SlotUnaffected(cur: Json, c: Component, v: Json, d: Component, q: Path, w: Json)
    requires d != c && Fits(cur, c) && !IsNegative(c)
    requires Slot(Child(Place(cur, c, v), d), q, w).ok
    ensures Slot(Child(Place(cur, c, v), d), q, w) == Slot(Child(cur, d), q, w)
  {
    PlaceKeepsOthers(cur, c, v, d);
  }

  /** Writes at incomparable paths commute, whenever both succeed in both orders. */
  lemma {:induction false} WritesCommute(root: Json, p: Path, v: Json, q: Path, w: Json)
    requires Incomparable(p, q)
    requires Write(root, p, Some(v)).ok && Write(root, q, Some(w)).ok
    requires Write(Write(root, p, Some(v)).doc, q, Some(w)).ok
    requires Write(Write(root, q, Some(w)).doc, p, Some(v)).ok
    ensures Write(Write(root, p, Some(v)).doc, q, Some(w)).doc
            == Write(Write(root, q, Some(w)).doc, p, Some(v)).doc
    decreases |p|
  {
    if IsNegative(p[0]) {
      NegativeCommutes(root, p, v, q, w);
    } else if IsNegative(q[0]) {
      NegativeCommutes(root, q, w, p, v);
    } else {
      HeadAndTail(p);
      HeadAndTail(q);
      if p[0] != q[0] {
        DifferentSlots(root, p[0], p[1..], v, q[0], q[1..], w);
      } else {
        IncomparableTails(p, q);
        var child := CommonSlot(root, p[0], p[1..], v, q[1..], w);
        WritesCommute(child, p[1..], v, q[1..], w);
      }
    }
  }

  lemma HeadAndTail(p: Path)
    requires p != []
    ensures p == [p[0]] + p[1..]
  {
  }

  lemma NegativeCommutes(root: Json, p: Path, v: Json, q: Path, w: Json)
    requires p != [] && IsNegative(p[0])
    requires Write(root, p, Some(v)).ok && Write(Write(root, q, Some(w)).doc, p, Some(v)).ok
    ensures Write(Write(root, p, Some(v)).doc, q, Some(w)).doc == Write(Write(root, q, Some(w)).doc, p, Some(v)).doc
  {
    NegativeHead(root, p, v);
    NegativeHead(Write(root, q, Some(w)).doc, p, v);
  }

  lemma DifferentSlots(root: Json, c: Component, p: Path, v: Json, d: Component, q: Path, w: Json)
    requires c != d && !IsNegative(c) && !IsNegative(d)
    requires Write(root, [c] + p, Some(v)).ok && Write(root, [d] + q, Some(w)).ok
    requires Write(Write(root, [c] + p, Some(v)).doc, [d] + q, Some(w)).ok
    requires Write(Write(root, [d] + q, Some(w)).doc, [c] + p, Some(v)).ok
    ensures Write(Write(root, [c] + p, Some(v)).doc, [d] + q, Some(w)).doc
            == Write(Write(root, [d] + q, Some(w)).doc, [c] + p, Some(v)).doc
  {
    WriteIsPlace(root, c, p, v);
    WriteIsPlace(root, d, q, w);
    WriteIsPlace(Write(root, [c] + p, Some(v)).doc, d, q, w);
    WriteIsPlace(Write(root, [d] + q, Some(w)).doc, c, p, v);
    var sp, sq := Slot(Child(root, c), p, v).doc, Slot(Child(root, d), q, w).doc;
    SlotUnaffected(root, c, sp, d, q, w);
    SlotUnaffected(root, d, sq, c, p, v);
    PlacesCommute(root, c, sp, d, sq);
  }

  /** Two writes into the same slot are two writes into what it holds, or will hold. */
  lemma CommonSlot(root: Json, c: Component, p: Path, v: Json, q: Path, w: Json) returns (child: Json)
    requires !IsNegative(c) && p != [] && q != []
    requires Write(root, [c] + p, Some(v)).ok && Write(root, [c] + q, Some(w)).ok
    requires Write(Write(root, [c] + p, Some(v)).doc, [c] + q, Some(w)).ok
    requires Write(Write(root, [c] + q, Some(w)).doc, [c] + p, Some(v)).ok
    ensures Write(child, p, Some(v)).ok && Write(child, q, Some(w)).ok
    ensures Write(Write(child, p, Some(v)).doc, q, Some(w)).ok && Write(Write(child, q, Some(w)).doc, p, Some(v)).ok
    ensures Write(Write(child, p, Some(v)).doc, q, Some(w)).doc == Write(Write(child, q, Some(w)).doc, p, Some(v)).doc ==>
              Write(Write(root, [c] + p, Some(v)).doc, [c] + q, Some(w)).doc
              == Write(Write(root, [c] + q, Some(w)).doc, [c] + p, Some(v)).doc
  {
    WriteIsPlace(root, c, p, v);
    WriteIsPlace(root, c, q, w);
    var sp, sq := Slot(Child(root, c), p, v).doc, Slot(Child(root, c), q, w).doc;
    PlacedSlot(root, c, sp);
    PlacedSlot(root, c, sq);
    WriteIsPlace(Place(root, c, sp), c, q, w);
    WriteIsPlace(Place(root, c, sq), c, p, v);
    SameSlot(Child(root, c), p, v, q, w);
    child := if Child(root, c).Some? then Child(root, c).value else MakeCollection(p[0]);
    PlaceTwice(root, c, sp, Write(sp, q, Some(w)).doc);
    PlaceTwice(root, c, sq, Write(sq, p, Some(v)).doc);
  }

  lemma PlacedSlot(cur: Json, c: Component, v: Json)
    requires Fits(cur, c) && !IsNegative(c)
    ensures Child(Place(cur, c, v), c) == Some(v)
  {
  }

  /** With a common slot to create, both paths ask for the same kind of container. */
  lemma SameSlot(child: Option<Json>, p: Path, v: Json, q: Path, w: Json)
    requires p != [] && q != []
    requires Slot(child, p, v).ok && Write(Slot(child, p, v).doc, q, Some(w)).ok
    ensures child.None? ==> MakeCollection(p[0]) == MakeCollection(q[0])
  {
    if child.None? {
      WrittenFits(MakeCollection(p[0]), p, Some(v));
      WrittenFits(Slot(child, p, v).doc, q, Some(w));
    }
  }

  /** A successful write needs a container of its first component's type, and keeps the type. */
  lemma WrittenFits(cur: Json, path: Path, value: Option<Json>)
    requires path != [] && Write(cur, path, value).ok
    ensures Fits(cur, path[0]) && Fits(Write(cur, path, value).doc, path[0])
  {
  }

  lemma PlaceTwice(cur: Json, c: Component, v: Json, w: Json)
    requires Fits(cur, c) && !IsNegative(c)
    ensures Fits(Place(cur, c, v), c)
    ensures Place(Place(cur, c, v), c, w) == Place(cur, c, w)
  {
    match c
    case Key(k) => assert cur.fields[k := v][k := w] == cur.fields[k := w];
    case Index(n) =>
      var once := Pad(cur.elems, n + 1)[n := v];
      assert Pad(once, n + 1) == once;
      assert once[n := w] == Pad(cur.elems, n + 1)[n := w];
  }

  /** A successful write through a negative index ends there, and changes no element. */
  lemma NegativeHead(root: Json, p: Path, v: Json)
    requires p != [] && IsNegative(p[0]) && Write(root, p, Some(v)).ok
    ensures |p| == 1 && Write(root, p, Some(v)).doc == root
  {
  }

  // ---------------------------------------------------------------- laws of deleting

  /** A successful delete of a key leaves its path undefined. */
  lemma {:induction false} DeleteKey(root: Json, path: Path)
    requires path != [] && path[|path| - 1].Key?
    requires Write(root, path, None).ok
    ensures Read(Write(root, path, None).doc, path) == None
    decreases |path|
  {
    if |path| > 1 {
      var box := Enter(root, path[0], path[1]);
      DeleteKey(Child(box, path[0]).value, path[1..]);
    }
  }

  /** Deleting an array element keeps those before it and moves those after it down by one;
      nothing outside the array changes. */
  lemma DeleteIndex(root: Json, parent: Path, n: int)
    requires Read(root, parent).Some? && Read(root, parent).value.Arr?
    requires 0 <= n < |Read(root, parent).value.elems|
    ensures var w := Write(root, parent + [Index(n)], None);
            var elems := Read(root, parent).value.elems;
            && w.ok
            && w.doc == PutAt(root, parent, Arr(elems[..n] + elems[n + 1..]))
            && (forall j: nat ::
                  Read(w.doc, parent + [Index(j)]) == Read(root, parent + [Index(if j < n then j else j + 1)]))
  {
    var elems := Read(root, parent).value.elems;
    var w := Write(root, parent + [Index(n)], None);
    WriteBelow(root, parent, [Index(n)], None);
    assert Pad(elems, n) == elems;
    var left := elems[..n] + elems[n + 1..];
    PutThenRead(root, parent, Arr(left));
    forall j: nat
      ensures Read(w.doc, parent + [Index(j)]) == Read(root, parent + [Index(if j < n then j else j + 1)])
    {
      ElementOf(w.doc, parent, left, j);
      ElementOf(root, parent, elems, if j < n then j else j + 1);
    }
  }

  lemma ElementOf(root: Json, parent: Path, elems: seq<Json>, j: nat)
    requires Read(root, parent) == Some(Arr(elems))
    ensures Read(root, parent + [Index(j)]) == if j < |elems| then Some(elems[j]) else None
  {
    ReadAppend(root, parent, [Index(j)]);
    ReadSlot(Arr(elems), Index(j));
  }

  lemma ReadSlot(cur: Json, c: Component)
    ensures Read(cur, [c]) == Child(cur, c)
  {
    assert [c][1..] == [];
  }

  /** Is slot `c` of an existing container one that a write adds at the very end or as a key? */
  predicate NextSlot(cur: Json, c: Component) {
    match c
    case Key(k) => cur.Obj? && k !in cur.fields
    case Index(n) => cur.Arr? && n == |cur.elems|
  }

  /** Adding a slot to an existing container and deleting it again restores the document. */
  lemma WriteThenDelete(root: Json, parent: Path, c: Component, v: Json)
    requires Read(root, parent).Some? && NextSlot(Read(root, parent).value, c)
    ensures var w := Write(root, parent + [c], Some(v));
            w.ok && Write(w.doc, parent + [c], None) == Written(true, root)
  {
    var cur := Read(root, parent).value;
    var added := WriteLast(cur, c, Some(v)).doc;
    WriteBelow(root, parent, [c], Some(v));
    PutThenRead(root, parent, added);
    WriteBelow(PutAt(root, parent, added), parent, [c], None);
    match c {
      case Key(k) => assert cur.fields[k := v] - {k} == cur.fields;
      case Index(n) =>
        assert Pad(cur.elems, n) == cur.elems && Pad(cur.elems + [v], n) == cur.elems + [v];
        assert Splice(cur.elems + [v], n) == cur.elems;
    }
    PutTwice(root, parent, added, cur);
    PutSame(root, parent);
  }

  /** A successful write leaves the container of its last component in place. */
  lemma {:induction false} ContainerExists(root: Json, path: Path, value: Option<Json>)
    requires path != [] && Write(root, path, value).ok
    ensures Read(Write(root, path, value).doc, path[..|path| - 1]).Some?
    decreases |path|
  {
    if |path| > 1 {
      var box := Enter(root, path[0], path[1]);
      ContainerExists(Child(box, path[0]).value, path[1..], value);
      assert path[..|path| - 1][1..] == path[1..][..|path| - 2];
    }
  }

  /** The container is of the type that the last component asks for. */
  lemma {:induction false} LastContainerFits(root: Json, path: Path, value: Option<Json>)
    requires path != [] && Write(root, path, value).ok
    ensures var at := Read(Write(root, path, value).doc, path[..|path| - 1]);
            at.Some? && if path[|path| - 1].Key? then at.value.Obj? else at.value.Arr?
    decreases |path|
  {
    if |path| > 1 {
      var box := Enter(root, path[0], path[1]);
      LastContainerFits(Child(box, path[0]).value, path[1..], value);
      assert path[..|path| - 1][1..] == path[1..][..|path| - 2];
    }
  }

  /** Deleting an absent slot of a container, which changes it only by padding or from the end. */
  lemma DeleteAbsentSlot(cur: Json, c: Component)
    requires Fits(cur, c) && Child(cur, c).None?
    ensures WriteLast(cur, c, None).doc == cur <==> NextSlot(cur, c) || (IsNegative(c) && cur == Arr([]))
  {
    match c
    case Key(k) => assert cur.fields - {k} == cur.fields;
    case Index(n) =>
      var elems := cur.elems;
      assert n >= 0 ==> Splice(Pad(elems, n), n) == Pad(elems, n);
      assert n == |elems| ==> Pad(elems, n) == elems;
      assert n < 0 && elems != [] ==> |Splice(elems, n)| < |elems|;
      assert n < 0 && elems == [] ==> Splice(elems, n) == elems;
  }

  /** Deleting what is not there is not always harmless: containers get created on the way, and an
      array gets padded up to the index. It changes nothing exactly when the container exists and
      the last component is a key, or the index just past the end, or any negative index of an
      empty array. */
  lemma DeleteAbsent(root: Json, parent: Path, c: Component)
    requires Read(root, parent + [c]) == None
    requires Write(root, parent + [c], None).ok
    ensures Write(root, parent + [c], None).doc == root
            <==> && Read(root, parent).Some?
                 && var cur := Read(root, parent).value;
                    NextSlot(cur, c) || (IsNegative(c) && cur == Arr([]))
  {
    var path := parent + [c];
    assert path[..|path| - 1] == parent;
    ContainerExists(root, path, None);
    if Read(root, parent).Some? {
      var cur := Read(root, parent).value;
      WriteBelow(root, parent, [c], None);
      ReadAppend(root, parent, [c]);
      ReadSlot(cur, c);
      var left := WriteLast(cur, c, None).doc;
      PutThenRead(root, parent, left);
      PutSame(root, parent);
      DeleteAbsentSlot(cur, c);
    }
  }

  lemma DeleteAbsentPads()
    ensures Write(Obj(map[]), [Key("a"), Index(1)], None) == Written(true, Obj(map["a" := Arr([Null])]))
  {
    var path := [Key("a"), Index(1)];
    assert path[1..] == [Index(1)];
    assert Pad([], 1) == [Null];
    assert map["a" := Arr([])]["a" := Arr([Null])] == map["a" := Arr([Null])];
    assert Write(Arr([]), path[1..], None) == Written(true, Arr([Null]));
  }

  /** A negative index names no element to read, yet deleting it removes one, counted from the end. */
  lemma DeleteNegative(root: Json, parent: Path, n: int)
    requires n < 0 && Read(root, parent).Some? && Read(root, parent).value.Arr?
    requires Read(root, parent).value.elems != []
    ensures Read(root, parent + [Index(n)]) == None
    ensures var count := |Read(root, parent).value.elems|;
            Write(root, parent + [Index(n)], None)
            == Write(root, parent + [Index(if count + n >= 0 then count + n else 0)], None)
    ensures Write(root, parent + [Index(n)], None).doc != root
  {
    var elems := Read(root, parent).value.elems;
    var m := if |elems| + n >= 0 then |elems| + n else 0;
    ReadAppend(root, parent, [Index(n)]);
    ReadSlot(Arr(elems), Index(n));
    SpliceNegative(elems, n);
    assert WriteLast(Arr(elems), Index(n), None) == WriteLast(Arr(elems), Index(m), None);
    WriteBelow(root, parent, [Index(n)], None);
    WriteBelow(root, parent, [Index(m)], None);
    PutThenRead(root, parent, Arr(Splice(elems, n)));
  }

  lemma SpliceNegative(elems: seq<Json>, n: int)
    requires n < 0 && elems != []
    ensures var m := if |elems| + n >= 0 then |elems| + n else 0;
            Splice(Pad(elems, n), n) == Splice(Pad(elems, m), m) == Splice(elems, n)
    ensures |Splice(elems, n)| == |elems| - 1
  {
    assert Pad(elems, n) == elems;
  }

  // ---------------------------------------------------------------- the class

  /** A document held by reference, so that it can be edited in place. */
  class Document {
    var body: Json

    constructor (body: Json)
      ensures this.body == body
    {
      this.body := body;
    }
  }

  /** A parsed key path. The cursor of `Write` is the position `components[..i]` in the document,
      and an assignment through it replaces the value at that position. */
  class KeyPath {
    const path: string
    const str: string
    const components: Path

    ghost predicate Valid() {
      str == Normalize(path) && Parse(path) == Some(components)
    }

    constructor (path: string, str: string, components: Path)
      requires str == Normalize(path) && Parse(path) == Some(components)
      ensures Valid() && this.path == path
    {
      this.path, this.str, this.components := path, str, components;
    }

    /** A key path for a string, or None where making one throws. */
    static method Create(path: string) returns (r: Option<KeyPath>)
      ensures r.None? <==> Parse(path).None?
      ensures r.Some? ==> fresh(r.value) && r.value.Valid() && r.value.path == path
    {
      var str, components := ParseComponents(path);
      if components.None? {
        return None;
      }
      var keyPath := new KeyPath(path, str, components.value);
      r := Some(keyPath);
    }

    method ReadValue(root: Json) returns (cur: Option<Json>)
      ensures cur == Read(root, components)
    {
      cur := Some(root);
      var i := 0;
      while i < |components| && cur.Some?
        invariant 0 <= i <= |components|
        invariant Read(root, components) == ReadFrom(cur, components[i..])
      {
        assert components[i..][1..] == components[i + 1..];
        match components[i] {
          case Key(k) =>
            cur := if cur.value.Obj? && k in cur.value.fields then Some(cur.value.fields[k]) else None;
          case Index(n) =>
            cur := if cur.value.Arr? && 0 <= n < |cur.value.elems| then Some(cur.value.elems[n]) else None;
        }
        i := i + 1;
      }
    }

    /** The cursor of `WriteValue` stands at component `i` and sees `cur`; what remains to be done
        to `now` gives what the write promises for the document it started from. */
    ghost predicate Traversing(start: Json, now: Json, i: nat, cur: Option<Json>, value: Option<Json>) {
      && i < |components|
      && Read(now, components[..i]) == cur
      && Write(start, components, value) == if cur.None? then Written(false, now) else Write(now, components, value)
    }

    /** The remaining write, seen from the cursor. */
    lemma AtCursor(now: Json, i: nat, value: Option<Json>)
      requires i < |components| && Read(now, components[..i]).Some?
      ensures var inner := Write(Read(now, components[..i]).value, [components[i]] + components[i + 1..], value);
              Write(now, components, value) == Written(inner.ok, PutAt(now, components[..i], inner.doc))
    {
      assert components == components[..i] + components[i..] && components[i..] == [components[i]] + components[i + 1..];
      WriteBelow(now, components[..i], components[i..], value);
    }

    /** An inner step: creating what `Enter` creates, and moving the cursor there. */
    lemma StepDown(start: Json, now: Json, i: nat, cur: Json, value: Option<Json>)
      requires Traversing(start, now, i, Some(cur), value)
      requires i + 1 < |components| && Fits(cur, components[i])
      ensures var box := Enter(cur, components[i], components[i + 1]);
              Traversing(start, PutAt(now, components[..i], box), i + 1, Child(box, components[i]), value)
      ensures Enter(cur, components[i], components[i + 1]) == cur ==> PutAt(now, components[..i], cur) == now
    {
      var c, at, rest := components[i], components[..i], components[i + 1..];
      var box := Enter(cur, c, rest[0]);
      var next := PutAt(now, at, box);
      PutThenRead(now, at, box);
      PutSame(now, at);
      ReadAppend(next, at, [c]);
      ReadSlot(box, c);
      assert components[..i + 1] == at + [c];
      AtCursor(now, i, value);
      AtCursor(next, i, value);
      InnerWrite(cur, c, rest, value);
      InnerWrite(box, c, rest, value);
      PutTwice(now, at, box, Write(cur, [c] + rest, value).doc);
    }

    /** The final step, or a type mismatch at any step. */
    lemma LastStep(start: Json, now: Json, i: nat, cur: Json, value: Option<Json>)
      requires Traversing(start, now, i, Some(cur), value)
      ensures !Fits(cur, components[i]) ==> Write(start, components, value) == Written(false, now)
      ensures Fits(cur, components[i]) && i + 1 == |components| ==>
                Write(start, components, value)
                == Written(true, PutAt(now, components[..i], WriteLast(cur, components[i], value).doc))
    {
      AtCursor(now, i, value);
      PutSame(now, components[..i]);
      if i + 1 == |components| {
        assert [components[i]] + components[i + 1..] == [components[i]];
      }
    }

    /** Assigns the value to the path's position in the document, or deletes that position; false
        where the traversal is stopped. */
    method WriteValue(doc: Document, value: Option<Json>) returns (ok: bool)
      modifies doc
      ensures Written(ok, doc.body) == Write(old(doc.body), components, value)
    {
      ghost var start := doc.body;
      var cur := Some(doc.body);
      var last := |components| - 1;
      var i := 0;
      while i <= last
        invariant 0 <= i <= |components|
        invariant i <= last ==> Traversing(start, doc.body, i, cur, value)
        invariant i > last ==> Write(start, components, value) == Written(true, doc.body)
      {
        var c, at := components[i], components[..i];
        if cur.Some? {
          LastStep(start, doc.body, i, cur.value, value);
          if i < last && Fits(cur.value, c) {
            StepDown(start, doc.body, i, cur.value, value);
          }
        }
        match c {
          case Key(k) =>
            if !(cur.Some? && cur.value.Obj?) {
              return false;  // type mismatch
            }
            var fields := cur.value.fields;
            if i == last {
              if value.Some? {
                doc.body := PutAt(doc.body, at, Obj(fields[k := value.value]));
              } else {
                doc.body := PutAt(doc.body, at, Obj(fields - {k}));
              }
            } else if k in fields {
              cur := Some(fields[k]);
            } else {
              var made := MakeCollection(components[i + 1]);
              doc.body := PutAt(doc.body, at, Obj(fields[k := made]));
              cur := Some(made);
            }
          case Index(n) =>
            if !(cur.Some? && cur.value.Arr?) {
              return false;  // type mismatch
            }
            var elems := cur.value.elems;
            if i < last && |elems| >= n {
              cur := if 0 <= n < |elems| then Some(elems[n]) else None;
            } else {
              while |elems| < n
                invariant |elems| <= n || elems == cur.value.elems
                invariant Pad(elems, n) == Pad(cur.value.elems, n)
              {
                elems := elems + [Null];
              }
              if i == last {
                if value.Some? {
                  if 0 <= n < |elems| {
                    elems := elems[n := value.value];
                  } else if n == |elems| {
                    elems := elems + [value.value];
                  }
                } else {
                  elems := Splice(elems, n);
                }
                doc.body := PutAt(doc.body, at, Arr(elems));
              } else {
                var made := MakeCollection(components[i + 1]);
                doc.body := PutAt(doc.body, at, Arr(elems + [made]));
                cur := Some(made);
              }
            }
        }
        i := i + 1;
      }
      ok := true;
    }
  }

  /** A cache of parsed key paths; it never holds a path that does not parse. */
  class KeyPathCache {
    var paths: map<string, KeyPath>

    ghost predicate Valid()
      reads this
    {
      forall s | s in paths :: paths[s].Valid() && paths[s].path == s
    }

    constructor ()
      ensures Valid() && paths == map[]
    {
      paths := map[];
    }

    /** The key path for `str`, the same whether or not it was asked for before. */
    method Lookup(str: string) returns (r: Option<KeyPath>)
      requires Valid()
      modifies this
      ensures Valid()
      ensures r.None? <==> Parse(str).None?
      ensures r.Some? ==> r.value.Valid() && r.value.path == str
      ensures paths == if r.None? then old(paths) else old(paths)[str := r.value]
      ensures str in old(paths) ==> r == Some(old(paths)[str])
    {
      if str in paths {
        assert paths[str := paths[str]] == paths;
        return Some(paths[str]);
      }
      r := KeyPath.Create(str);
      if r.Some? {
        paths := paths[str := r.value];
      }
    }
  }
}

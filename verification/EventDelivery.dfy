/** Document replication events on their way from a test server to the client: accumulated by the
    server, drained by each status request, and appended to the client's cache. */
module EventDelivery {
  import opened Wrappers
  import opened CollectionNames

  // ---------------------------------------------------------------- the wire form

  datatype DocError = DocError(domain: string, code: int)

  /** What the replicator's document listener is told about one document. */
  datatype ReplicatedDoc = ReplicatedDoc(
    collection: string, docID: string, push: bool, deleted: bool, lostAccess: bool, error: Option<DocError>)

  /** The event as the server sends it. */
  datatype WireEvent = WireEvent(
    collection: string, documentID: string, isPush: bool, flags: seq<string>, error: Option<DocError>)

  /** A combination of `ReplicatorDocumentFlags`. */
  datatype DocFlags = DocFlags(deleted: bool, accessRemoved: bool)

  const NO_FLAGS := DocFlags(false, false)

  /** The event as the client holds it. */
  datatype DocEvent = DocEvent(
    collection: string, documentID: string, isPush: bool, flags: DocFlags, error: Option<DocError>)

  function ToWire(collection: string, doc: ReplicatedDoc): WireEvent {
    WireEvent(
      CollectionIDWithScope(collection), doc.docID, doc.push,
      (if doc.deleted then ["deleted"] else []) + (if doc.lostAccess then ["accessRemoved"] else []),
      doc.error)
  }

  /** The upper case of a character where it is one letter of a flag word: besides the small letters,
      the long s has one. */
  function UpperChar(c: char): char {
    if 'a' <= c <= 'z' then (c as int - 'a' as int + 'A' as int) as char
    else if c == '\U{17F}' then 'S'
    else c
  }

  function Upper(s: string): string { seq(|s|, i requires 0 <= i < |s| => UpperChar(s[i])) }

  /** Is `flag` what `upper` makes of the word? The sharp s is the one character whose upper case is
      two letters that stand in a flag word. */
  predicate Spells(word: string, flag: string) {
    Upper(word) == flag || (flag == "ACCESSREMOVED" && Upper(word) == "ACCE\U{DF}REMOVED")
  }

  /** One flag word, whatever its case; None where the parser raises. */
  function ParseFlag(word: string): Option<DocFlags> {
    if Spells(word, "NONE") then Some(NO_FLAGS)
    else if Spells(word, "DELETED") then Some(DocFlags(true, false))
    else if Spells(word, "ACCESSREMOVED") then Some(DocFlags(false, true))
    else None
  }

  // The words of the specification, in any case.

  lemma NoneWord()
    ensures ParseFlag("none") == ParseFlag("NONE") == Some(DocFlags(false, false))
  {
    assert Upper("none") == Upper("NONE") == "NONE";
  }

  lemma DeletedWord()
    ensures ParseFlag("deleted") == ParseFlag("DELETED") == Some(DocFlags(true, false))
  {
    assert Upper("deleted") == Upper("DELETED") == "DELETED";
  }

  lemma AccessRemovedWord()
    ensures ParseFlag("accessRemoved") == ParseFlag("accessremoved") == Some(DocFlags(false, true))
  {
    assert Upper("accessRemoved") == Upper("accessremoved") == "ACCESSREMOVED";
  }

  /** There are no others: a word has the length of one of these. */
  lemma OtherWords(word: string)
    requires |word| != 4 && |word| != 7 && |word| != 12 && |word| != 13
    ensures ParseFlag(word) == None
  {
    assert |Upper(word)| == |word|;
  }

  function Union(a: DocFlags, b: DocFlags): DocFlags {
    DocFlags(a.deleted || b.deleted, a.accessRemoved || b.accessRemoved)
  }

  /** Some word of the list sets each flag of the result, and every word is a flag word. */
  predicate FlagsOf(words: seq<string>, flags: DocFlags) {
    && (forall i | 0 <= i < |words| :: ParseFlag(words[i]).Some?)
    && (flags.deleted <==> exists i | 0 <= i < |words| :: ParseFlag(words[i]).Some? && ParseFlag(words[i]).value.deleted)
    && (flags.accessRemoved <==>
          exists i | 0 <= i < |words| :: ParseFlag(words[i]).Some? && ParseFlag(words[i]).value.accessRemoved)
  }

  method ParseAll(words: seq<string>) returns (flags: Option<DocFlags>)
    ensures flags.Some? ==> FlagsOf(words, flags.value)
    ensures flags.None? <==> exists i | 0 <= i < |words| :: ParseFlag(words[i]).None?
  {
    var acc := NO_FLAGS;
    for i := 0 to |words|
      invariant FlagsOf(words[..i], acc)
    {
      var flag := ParseFlag(words[i]);
      if flag.None? {
        return None;
      }
      var next := Union(acc, flag.value);
      OneMoreFlag(words, i, acc, next);
      acc := next;
    }
    assert words[..|words|] == words;
    flags := Some(acc);
  }

  lemma OneMoreFlag(words: seq<string>, i: nat, acc: DocFlags, next: DocFlags)
    requires i < |words| && FlagsOf(words[..i], acc)
    requires ParseFlag(words[i]).Some? && next == Union(acc, ParseFlag(words[i]).value)
    ensures FlagsOf(words[..i + 1], next)
  {
    var before, now := words[..i], words[..i + 1];
    assert forall j | 0 <= j < i :: now[j] == before[j];
    assert now[i] == words[i];
    if acc.deleted {
      var j :| 0 <= j < |before| && ParseFlag(before[j]).Some? && ParseFlag(before[j]).value.deleted;
      assert now[j] == before[j];
    }
    if acc.accessRemoved {
      var j :| 0 <= j < |before| && ParseFlag(before[j]).Some? && ParseFlag(before[j]).value.accessRemoved;
      assert now[j] == before[j];
    }
  }

  /** The client's form of an event; None where building it raises. */
  method FromWire(e: WireEvent) returns (r: Option<DocEvent>)
    ensures r.None? <==> exists i | 0 <= i < |e.flags| :: ParseFlag(e.flags[i]).None?
    ensures r.Some? ==>
              && r.value == DocEvent(e.collection, e.documentID, e.isPush, r.value.flags, e.error)
              && FlagsOf(e.flags, r.value.flags)
  {
    var flags := ParseAll(e.flags);
    r := if flags.None? then None else Some(DocEvent(e.collection, e.documentID, e.isPush, flags.value, e.error));
  }

  /** Nothing about a document is lost or altered between the listener and the client. */
  method WireRoundTrip(collection: string, doc: ReplicatedDoc) returns (r: Option<DocEvent>)
    ensures r.Some?
    ensures '.' in r.value.collection && NormalizeCollectionID(r.value.collection) == NormalizeCollectionID(collection)
    ensures r.value.documentID == doc.docID && r.value.isPush == doc.push && r.value.error == doc.error
    ensures r.value.flags.deleted == doc.deleted && r.value.flags.accessRemoved == doc.lostAccess
  {
    ScopeSpelledOut(collection);
    var wire := ToWire(collection, doc);
    WireFlags(doc);
    r := FromWire(wire);
  }

  lemma WireFlags(doc: ReplicatedDoc)
    ensures var flags := ToWire("", doc).flags;
            forall f :: FlagsOf(flags, f) <==> f == DocFlags(doc.deleted, doc.lostAccess)
  {
    assert Upper("deleted") == "DELETED";
    assert Upper("accessRemoved") == "ACCESSREMOVED";
    var flags := ToWire("", doc).flags;
    assert doc.deleted ==> flags[0] == "deleted";
    assert doc.lostAccess ==> flags[|flags| - 1] == "accessRemoved";
  }

  // ---------------------------------------------------------------- the server's side

  function AllToWire(collection: string, docs: seq<ReplicatedDoc>): seq<WireEvent> {
    seq(|docs|, i requires 0 <= i < |docs| => ToWire(collection, docs[i]))
  }

  class ReplicatorInfo {
    var documents: Option<seq<WireEvent>>

    constructor ()
      ensures Undrained(documents) == []
      ensures documents == Start<WireEvent>().server
    {
      documents := Some([]);
    }

    /** The document listener: one call brings a batch of documents of one collection. */
    method OnDocuments(collection: string, docs: seq<ReplicatedDoc>)
      modifies this
      ensures Undrained(documents) == Undrained(old(documents)) + AllToWire(collection, docs)
      ensures forall c: Channel<WireEvent> | c.server == old(documents) ::
                Next(c, Arrive(AllToWire(collection, docs))).server == documents
    {
      if documents.None? {
        documents := Some([]);
      }
      for i := 0 to |docs|
        invariant documents.Some?
        invariant documents.value == Undrained(old(documents)) + AllToWire(collection, docs[..i])
      {
        assert AllToWire(collection, docs[..i + 1]) == AllToWire(collection, docs[..i]) + [ToWire(collection, docs[i])];
        documents := Some(documents.value + [ToWire(collection, docs[i])]);
      }
      assert docs[..|docs|] == docs;
    }

    /** A status request takes the accumulated events away with it. */
    method GetStatus() returns (response: Option<seq<WireEvent>>)
      modifies this
      ensures Undrained(response) == Undrained(old(documents))
      ensures Undrained(documents) == []
      ensures forall c: Channel<WireEvent> | c.server == old(documents) ::
                Next(c, Poll) == c.(server := documents, inFlight := c.inFlight + [response])
    {
      response := documents;
      documents := None;
    }
  }

  /** An absent list counts as empty, on the server and in a response. */
  function Undrained<E>(documents: Option<seq<E>>): seq<E> {
    if documents.Some? then documents.value else []
  }

  // ---------------------------------------------------------------- any interleaving

  /** A server, the responses on their way, and the client. `produced` and `cleared` are history:
      all events so far, and those that the client has dropped from its cache. */
  datatype Channel<E> = Channel(
    produced: seq<E>, server: Option<seq<E>>, inFlight: seq<Option<seq<E>>>, cache: seq<E>, cleared: seq<E>)

  datatype Step<E> =
    | Arrive(batch: seq<E>)  // the listener is called
    | Poll                   // the server answers a status request
    | Receive                // the client extends its cache with the oldest response
    | Clear                  // the client clears its cache

  function Start<E>(): Channel<E> { Channel([], Some([]), [], [], []) }

  predicate Enabled<E>(c: Channel<E>, step: Step<E>) { step.Receive? ==> c.inFlight != [] }

  function Next<E>(c: Channel<E>, step: Step<E>): Channel<E>
    requires Enabled(c, step)
  {
    match step
    case Arrive(batch) =>
      c.(produced := c.produced + batch, server := Some(Undrained(c.server) + batch))
    case Poll =>
      c.(server := None, inFlight := c.inFlight + [c.server])
    case Receive =>
      c.(inFlight := c.inFlight[1..], cache := c.cache + Undrained(c.inFlight[0]))
    case Clear =>
      c.(cleared := c.cleared + c.cache, cache := [])
  }

  function Flow<E>(responses: seq<Option<seq<E>>>): seq<E> {
    if responses == [] then [] else Undrained(responses[0]) + Flow(responses[1..])
  }

  /** The channel after some steps, if each of them was possible. */
  function After<E>(steps: seq<Step<E>>): Option<Channel<E>> {
    if steps == [] then Some(Start())
    else
      match After(steps[..|steps| - 1])
      case None => None
      case Some(c) =>
        if Enabled(c, steps[|steps| - 1]) then Some(Next(c, steps[|steps| - 1])) else None
  }

  /** The batches that the listener was called with, one after the other. */
  function Arrived<E>(steps: seq<Step<E>>): seq<E> {
    if steps == [] then []
    else Arrived(steps[..|steps| - 1]) + if steps[|steps| - 1].Arrive? then steps[|steps| - 1].batch else []
  }

  lemma {:induction false} ProducedIsArrived<E>(steps: seq<Step<E>>)
    requires After(steps).Some?
    ensures After(steps).value.produced == Arrived(steps)
    ensures !(Clear in steps) ==> After(steps).value.cleared == []
  {
    if steps != [] {
      ProducedIsArrived(steps[..|steps| - 1]);
    }
  }

  /** Where every event is: dropped, cached, on its way, or still with the server. */
  function Everywhere<E>(c: Channel<E>): seq<E> {
    c.cleared + c.cache + Flow(c.inFlight) + Undrained(c.server)
  }

  lemma FlowOne<E>(r: Option<seq<E>>)
    ensures Flow([r]) == Undrained(r)
  {
    var none: seq<Option<seq<E>>> := [];
    assert [r][1..] == none;
    assert Flow(none) == [];
    assert Undrained(r) + [] == Undrained(r);
  }

  lemma FlowCons<E>(responses: seq<Option<seq<E>>>)
    requires responses != []
    ensures Flow(responses) == Undrained(responses[0]) + Flow(responses[1..])
  {
  }

  lemma Associate<E>(a: seq<E>, b: seq<E>, c: seq<E>)
    ensures (a + b) + c == a + (b + c)
  {
  }

  lemma {:induction false} FlowAppend<E>(responses: seq<Option<seq<E>>>, r: Option<seq<E>>)
    ensures Flow(responses + [r]) == Flow(responses) + Undrained(r)
  {
    var all := responses + [r];
    if responses == [] {
      FlowOne(r);
      assert all == [r];
      assert Flow(responses) + Undrained(r) == Undrained(r);
    } else {
      var rest := responses[1..];
      FlowAppend(rest, r);
      FlowCons(responses);
      FlowCons(all);
      assert all[1..] == rest + [r];
      assert all[0] == responses[0];
      assert Flow(all) == Undrained(responses[0]) + (Flow(rest) + Undrained(r));
      Associate(Undrained(responses[0]), Flow(rest), Undrained(r));
    }
  }

  /** However arrivals, polls and receptions interleave, each event is delivered exactly once and
      in order: those produced are those in the cache, then on their way, then with the server. */
  lemma {:induction false} ExactlyOnceInOrder<E>(steps: seq<Step<E>>)
    requires After(steps).Some?
    ensures After(steps).value.produced == Everywhere(After(steps).value)
  {
    if steps != [] {
      var most, step := steps[..|steps| - 1], steps[|steps| - 1];
      ExactlyOnceInOrder(most);
      var c := After(most).value;
      if step.Poll? {
        FlowAppend(c.inFlight, c.server);
      }
      assert After(steps).value == Next(c, step);
      StepKeepsEverything(c, step);
    }
  }

  lemma StepKeepsEverything<E>(c: Channel<E>, step: Step<E>)
    requires Enabled(c, step) && c.produced == Everywhere(c)
    ensures Next(c, step).produced == Everywhere(Next(c, step))
  {
    var front, flow, rest := c.cleared + c.cache, Flow(c.inFlight), Undrained(c.server);
    match step
    case Arrive(batch) => assert front + flow + (rest + batch) == front + flow + rest + batch;
    case Poll =>
      FlowAppend(c.inFlight, c.server);
      assert front + (flow + rest) + [] == front + flow + rest;
    case Receive =>
      var first, others := Undrained(c.inFlight[0]), Flow(c.inFlight[1..]);
      assert c.cleared + (c.cache + first) + others + rest == front + (first + others) + rest;
    case Clear => assert front + [] == front;
  }

  /** Steps that bring in every response on its way. */
  function ReceiveAll<E>(n: nat): seq<Step<E>> {
    if n == 0 then [] else ReceiveAll(n - 1) + [Receive]
  }

  lemma {:induction false} Receiving<E>(steps: seq<Step<E>>, n: nat)
    requires After(steps).Some? && n <= |After(steps).value.inFlight|
    ensures var c, d := After(steps).value, After(steps + ReceiveAll(n));
            d.Some? && d.value.inFlight == c.inFlight[n..]
            && d.value.server == c.server && d.value.produced == c.produced && d.value.cleared == c.cleared
  {
    var more := steps + ReceiveAll(n);
    if n == 0 {
      assert more == steps;
    } else {
      Receiving(steps, n - 1);
      assert more[..|more| - 1] == steps + ReceiveAll(n - 1);
      assert more[|more| - 1] == Receive;
    }
  }

  /** One more poll, and the responses on their way: then the client has seen everything. */
  lemma OnePollCatchesUp<E>(steps: seq<Step<E>>)
    requires After(steps).Some?
    ensures var c := After(steps).value;
            var d := After(steps + [Poll] + ReceiveAll(|c.inFlight| + 1));
            d.Some? && d.value.produced == c.produced == d.value.cleared + d.value.cache
  {
    var c := After(steps).value;
    OneStep(steps, Poll);
    Receiving(steps + [Poll], |c.inFlight| + 1);
    NothingUnderway(steps + [Poll] + ReceiveAll(|c.inFlight| + 1));
  }

  lemma OneStep<E>(steps: seq<Step<E>>, step: Step<E>)
    requires After(steps).Some? && Enabled(After(steps).value, step)
    ensures After(steps + [step]) == Some(Next(After(steps).value, step))
  {
    assert (steps + [step])[..|steps|] == steps;
  }

  lemma NothingUnderway<E>(steps: seq<Step<E>>)
    requires After(steps).Some? && After(steps).value.inFlight == [] && Undrained(After(steps).value.server) == []
    ensures var c := After(steps).value; c.produced == c.cleared + c.cache
  {
    ExactlyOnceInOrder(steps);
    var c := After(steps).value;
    assert c.cleared + c.cache + [] + [] == c.cleared + c.cache;
  }
}

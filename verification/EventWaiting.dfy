/** Waiting on the client for document events: polling the replicator, and scanning only the part
    of the event cache that was not scanned before. */
module EventWaiting {
  import opened Wrappers
  import opened EventDelivery

  datatype Direction = Push | Pull | PushAndPull

  /** An event to wait for. PushAndPull, and absent flags, stand for any. */
  datatype Entry = Entry(
    collection: string, id: string, direction: Direction, flags: Option<DocFlags>,
    errDomain: Option<string>, errCode: Option<int>)

  /** `WaitForDocumentEventEntry.__eq__`. It is symmetric, but not transitive. */
  predicate Same(a: Entry, b: Entry) {
    && a.collection == b.collection && a.id == b.id
    && a.errDomain == b.errDomain
    && a.errCode == b.errCode
    && (a.direction == b.direction || a.direction == PushAndPull || b.direction == PushAndPull)
    && (a.flags == b.flags || a.flags.None? || b.flags.None?)
  }

  function DirectionOf(e: DocEvent): Direction { if e.isPush then Push else Pull }

  /** The entry that a received event is looked up by. */
  function EntryOf(e: DocEvent): Entry {
    Entry(e.collection, e.documentID, DirectionOf(e), Some(e.flags),
          if e.error.Some? then Some(e.error.value.domain) else None,
          if e.error.Some? then Some(e.error.value.code) else None)
  }

  /** Does the event fulfil the entry? It is about the document, goes in a direction that the entry
      allows, has its flags if there are any, and has its error or none as the entry has none. */
  predicate Fulfils(e: DocEvent, m: Entry) {
    && e.collection == m.collection && e.documentID == m.id
    && (m.direction.Push? ==> e.isPush) && (m.direction.Pull? ==> !e.isPush)
    && (m.flags.Some? ==> m.flags.value == e.flags)
    && match e.error
       case None => m.errDomain == None && m.errCode == None
       case Some(error) => m.errDomain == Some(error.domain) && m.errCode == Some(error.code)
  }

  /** Looking up an event finds the entries it fulfils. */
  lemma LookupIsFulfilment(e: DocEvent, m: Entry)
    ensures Same(EntryOf(e), m) <==> Fulfils(e, m)
  {
  }

  /** Two entries are equal exactly when one event could fulfil both, unless an entry is such that no
      event can: one with an error's domain but no code, or the reverse. */
  lemma EqualIfOneFulfilsBoth(a: Entry, b: Entry)
    requires a.errDomain.Some? <==> a.errCode.Some?
    ensures Same(a, b) <==> exists e :: Fulfils(e, a) && Fulfils(e, b)
  {
    if Same(a, b) {
      var isPush := a.direction.Push? || b.direction.Push?;
      var flags := if a.flags.Some? then a.flags.value else if b.flags.Some? then b.flags.value else NO_FLAGS;
      var error := if a.errDomain.Some? then Some(DocError(a.errDomain.value, a.errCode.value)) else None;
      var e := DocEvent(a.collection, a.id, isPush, flags, error);
      assert Fulfils(e, a) && Fulfils(e, b);
    }
  }

  // ---------------------------------------------------------------- Python sets of entries

  /** No two members of a set are equal under `__eq__`. */
  ghost predicate ProperSet(s: set<Entry>) {
    forall a, b | a in s && b in s && Same(a, b) :: a == b
  }

  /** Adding to a set does nothing when an equal member is there. */
  function Add(s: set<Entry>, e: Entry): set<Entry> {
    if exists m | m in s :: Same(e, m) then s else s + {e}
  }

  function AddAll(entries: seq<Entry>): set<Entry> {
    if entries == [] then {} else Add(AddAll(entries[..|entries| - 1]), entries[|entries| - 1])
  }

  /** However a set is filled, its members are pairwise unequal. */
  lemma {:induction false} SetsAreProper(entries: seq<Entry>)
    ensures ProperSet(AddAll(entries))
  {
    if entries != [] {
      SetsAreProper(entries[..|entries| - 1]);
      var s, e := AddAll(entries[..|entries| - 1]), entries[|entries| - 1];
      forall a, b | a in Add(s, e) && b in Add(s, e) && Same(a, b) ensures a == b {
        assert Same(b, a);
      }
    }
  }

  /** An entry is kept unless one for the same document was there before. */
  lemma {:induction false} OtherDocumentsKept(entries: seq<Entry>, n: nat)
    requires n < |entries|
    requires forall j | 0 <= j < n :: entries[j].collection != entries[n].collection || entries[j].id != entries[n].id
    ensures entries[n] in AddAll(entries)
    decreases |entries|
  {
    var most := entries[..|entries| - 1];
    if n < |most| {
      OtherDocumentsKept(most, n);
    } else {
      OnlyThose(most);
    }
  }

  lemma {:induction false} OnlyThose(entries: seq<Entry>)
    ensures forall m | m in AddAll(entries) :: m in entries
  {
    if entries != [] {
      OnlyThose(entries[..|entries| - 1]);
    }
  }

  /** Two documents make two entries. */
  lemma TwoDocuments(a: Entry, b: Entry)
    requires a.collection != b.collection || a.id != b.id
    ensures AddAll([a, b]) == {a, b}
  {
    OtherDocumentsKept([a, b], 0);
    OtherDocumentsKept([a, b], 1);
    OnlyThose([a, b]);
  }

  lemma SameIsNotTransitive()
    ensures exists a, b, c :: Same(a, b) && Same(b, c) && !Same(a, c)
  {
    var a := Entry("c", "d", Push, None, None, None);
    var b := Entry("c", "d", PushAndPull, None, None, None);
    var c := Entry("c", "d", Pull, None, None, None);
    assert Same(a, b) && Same(b, c) && !Same(a, c);
  }

  /** A concrete event matches at most one member of a set. */
  lemma AtMostOneMatch(s: set<Entry>, e: DocEvent, a: Entry, b: Entry)
    requires ProperSet(s) && a in s && b in s
    requires Same(EntryOf(e), a) && Same(EntryOf(e), b)
    ensures a == b
  {
    assert Same(a, b);
  }

  // ---------------------------------------------------------------- scanning

  predicate Seen(m: Entry, cache: seq<DocEvent>) {
    exists i | 0 <= i < |cache| :: Same(EntryOf(cache[i]), m)
  }

  /** The entries that no event of the cache matches: what a full rescan leaves. */
  function Remaining(initial: set<Entry>, cache: seq<DocEvent>): set<Entry> {
    set m | m in initial && !Seen(m, cache)
  }

  /** One more event takes away just the members it matches. */
  lemma RemainingStep(initial: set<Entry>, cache: seq<DocEvent>, n: nat)
    requires n < |cache|
    ensures Remaining(initial, cache[..n + 1])
            == set m | m in Remaining(initial, cache[..n]) && !Same(EntryOf(cache[n]), m)
  {
    var before, now := cache[..n], cache[..n + 1];
    forall m | m in initial ensures Seen(m, now) <==> Seen(m, before) || Same(EntryOf(cache[n]), m) {
      if Seen(m, before) {
        var i :| 0 <= i < n && Same(EntryOf(before[i]), m);
        assert now[i] == before[i];
      }
      if Same(EntryOf(cache[n]), m) {
        assert now[n] == cache[n];
      }
      if Seen(m, now) {
        var i :| 0 <= i <= n && Same(EntryOf(now[i]), m);
        assert i < n ==> before[i] == now[i];
      }
    }
  }

  /** Each entry is fulfilled by an event of the cache. */
  predicate AllFulfilled(initial: set<Entry>, cache: seq<DocEvent>) {
    forall m | m in initial :: Fulfilled(m, cache)
  }

  predicate Fulfilled(m: Entry, cache: seq<DocEvent>) {
    exists i | 0 <= i < |cache| :: Fulfils(cache[i], m)
  }

  lemma NoneRemains(initial: set<Entry>, cache: seq<DocEvent>)
    ensures Remaining(initial, cache) == {} <==> AllFulfilled(initial, cache)
  {
    forall m | m in initial ensures m in Remaining(initial, cache) <==> !Fulfilled(m, cache) {
      SeenIsFulfilled(m, cache);
    }
  }

  lemma SeenIsFulfilled(m: Entry, cache: seq<DocEvent>)
    ensures Seen(m, cache) <==> Fulfilled(m, cache)
  {
    forall i | 0 <= i < |cache| ensures Same(EntryOf(cache[i]), m) <==> Fulfils(cache[i], m) {
      LookupIsFulfilment(cache[i], m);
    }
  }

  // ---------------------------------------------------------------- waiting

  datatype Activity = Stopped | Offline | Connecting | Idle | Busy

  /** A status response: the replicator's activity and error, and the events it brings. */
  datatype Status = Status(activity: Activity, error: Option<DocError>, documents: seq<DocEvent>)

  // Waiting: the responses so far do not settle it. Raises: an assertion of the method fails.
  // IdleTimedOut: the replicator did not become idle in time.
  datatype Verdict = Waiting | AllSeen(n: nat) | StoppedShort(n: nat) | TimedOut | IdleTimedOut | Raises

  /** The cache after the first `n` responses. */
  function CacheAfter(cache: seq<DocEvent>, polls: seq<Status>, n: nat): seq<DocEvent>
    requires n <= |polls|
  {
    if n == 0 then cache else CacheAfter(cache, polls, n - 1) + polls[n - 1].documents
  }

  /** What is cached is what was there, and all that the responses brought. */
  lemma {:induction false} CacheHoldsAll(cache: seq<DocEvent>, polls: seq<Status>, n: nat, e: DocEvent)
    requires n <= |polls|
    ensures e in CacheAfter(cache, polls, n) <==> e in cache || exists j | 0 <= j < n :: e in polls[j].documents
    ensures cache <= CacheAfter(cache, polls, n)
  {
    if n > 0 {
      CacheHoldsAll(cache, polls, n - 1, e);
    }
  }

  /** Response `n` leaves entries unseen and the replicator running: the wait goes on. */
  predicate GoesOn(initial: set<Entry>, cache: seq<DocEvent>, polls: seq<Status>, n: nat)
    requires n < |polls|
  {
    && polls[n].error.None? && !polls[n].activity.Stopped?
    && !AllFulfilled(initial, CacheAfter(cache, polls, n + 1))
  }

  /** A wait that stops at response `n`: all entries seen, or the replicator stopped short. */
  predicate EndsAt(initial: set<Entry>, cache: seq<DocEvent>, polls: seq<Status>, n: nat, allSeen: bool)
  {
    && n < |polls| && polls[n].error.None?
    && (forall j | 0 <= j < n :: GoesOn(initial, cache, polls, j))
    && (if allSeen then AllFulfilled(initial, CacheAfter(cache, polls, n + 1))
        else polls[n].activity.Stopped? && !AllFulfilled(initial, CacheAfter(cache, polls, n + 1)))
  }

  /** Response `n` carries an error, and the wait was still going on. */
  predicate ErrorAt(initial: set<Entry>, cache: seq<DocEvent>, polls: seq<Status>, n: nat) {
    n < |polls| && polls[n].error.Some? && forall j | 0 <= j < n :: GoesOn(initial, cache, polls, j)
  }

  lemma EndsWithoutError(initial: set<Entry>, cache: seq<DocEvent>, polls: seq<Status>, n: nat)
    requires n <= |polls| && (n < |polls| ==> polls[n].error.None? && !GoesOn(initial, cache, polls, n))
    requires forall j | 0 <= j < n :: GoesOn(initial, cache, polls, j)
    ensures !exists m: nat :: ErrorAt(initial, cache, polls, m)
  {
    forall m: nat ensures !ErrorAt(initial, cache, polls, m) {
      if m < n {
        assert GoesOn(initial, cache, polls, m);
      } else if n < m < |polls| {
        assert !GoesOn(initial, cache, polls, n);
      }
    }
  }

  class Replicator {
    var documentUpdates: seq<DocEvent>
    const continuous: bool
    const enableDocumentListener: bool

    constructor (continuous: bool, enableDocumentListener: bool)
      ensures documentUpdates == []
      ensures this.continuous == continuous && this.enableDocumentListener == enableDocumentListener
    {
      this.continuous, this.enableDocumentListener := continuous, enableDocumentListener;
      documentUpdates := [];
    }

    method ClearDocumentUpdates()
      modifies this
      ensures documentUpdates == []
    {
      documentUpdates := [];
    }

    /** A status request that is answered with `response`. */
    method GetStatus(response: Status)
      modifies this
      ensures documentUpdates == old(documentUpdates) + response.documents
    {
      documentUpdates := documentUpdates + response.documents;
    }

    /** Scans the events after the first `processed`, removing the entries they match. */
    method Scan(events: set<Entry>, processed: nat, ghost initial: set<Entry>) returns (left: set<Entry>, scanned: nat)
      requires ProperSet(initial) && processed <= |documentUpdates|
      requires events == Remaining(initial, documentUpdates[..processed])
      ensures scanned == |documentUpdates|
      ensures left == Remaining(initial, documentUpdates)
      ensures left == {} <==> AllFulfilled(initial, documentUpdates)
    {
      left, scanned := events, processed;
      while scanned < |documentUpdates|
        invariant scanned <= |documentUpdates|
        invariant left == Remaining(initial, documentUpdates[..scanned])
      {
        var entry := EntryOf(documentUpdates[scanned]);
        RemainingStep(initial, documentUpdates, scanned);
        if exists m | m in left :: Same(entry, m) {
          var found :| found in left && Same(entry, found);
          forall m | m in left && Same(entry, m) ensures m == found {
            AtMostOneMatch(initial, documentUpdates[scanned], m, found);
          }
          left := left - {found};
        }
        scanned := scanned + 1;
      }
      assert documentUpdates[..scanned] == documentUpdates;
      NoneRemains(initial, documentUpdates);
    }

    /** Waits until all the events are seen, or the replicator stops. `polls` are the responses to
        its status requests, as far as they have come. */
    method WaitForDocEvents(initial: set<Entry>, polls: seq<Status>) returns (v: Verdict)
      requires ProperSet(initial)
      modifies this
      ensures v.Raises? <==> continuous || !enableDocumentListener
                             || exists n: nat :: ErrorAt(initial, old(documentUpdates), polls, n)
      ensures !v.TimedOut? && !v.IdleTimedOut?
      ensures v.AllSeen? ==> EndsAt(initial, old(documentUpdates), polls, v.n, true)
      ensures v.StoppedShort? ==> EndsAt(initial, old(documentUpdates), polls, v.n, false)
      ensures v.Waiting? ==> forall n | 0 <= n < |polls| :: GoesOn(initial, old(documentUpdates), polls, n)
      ensures v.AllSeen? || v.StoppedShort? ==>
                documentUpdates == CacheAfter(old(documentUpdates), polls, v.n + 1)
      ensures v.AllSeen? ==> AllFulfilled(initial, documentUpdates)
      ensures v.StoppedShort? ==> polls[v.n].activity == Stopped && !AllFulfilled(initial, documentUpdates)
      ensures v.Waiting? ==> forall n | 0 <= n < |polls| :: polls[n].error == None && polls[n].activity != Stopped
    {
      if continuous || !enableDocumentListener {
        return Raises;
      }
      ghost var cache := documentUpdates;
      var events, processed := initial, 0;
      for n := 0 to |polls|
        invariant documentUpdates == CacheAfter(cache, polls, n)
        invariant processed <= |documentUpdates|
        invariant events == Remaining(initial, documentUpdates[..processed])
        invariant forall j | 0 <= j < n :: GoesOn(initial, cache, polls, j)
      {
        assert (documentUpdates + polls[n].documents)[..processed] == documentUpdates[..processed];
        GetStatus(polls[n]);
        if polls[n].error.Some? {
          assert ErrorAt(initial, cache, polls, n);
          return Raises;
        }
        events, processed := Scan(events, processed, initial);
        assert documentUpdates[..processed] == documentUpdates;
        if events == {} || polls[n].activity.Stopped? {
          EndsWithoutError(initial, cache, polls, n);
        }
        if events == {} {
          return AllSeen(n);
        }
        if polls[n].activity.Stopped? {
          return StoppedShort(n);
        }
      }
      EndsWithoutError(initial, cache, polls, |polls|);
      forall n | 0 <= n < |polls| ensures polls[n].error == None && polls[n].activity != Stopped {
        assert GoesOn(initial, cache, polls, n);
      }
      v := Waiting;
    }

    /** Looks for the events whenever the replicator, a continuous one, is found idle, and gives up
        after `maxRetries` times. `polls` are the responses that came until now; `expired` says
        whether by now the time to wait for the next idle one has run out. */
    method WaitForAllDocEvents(initial: set<Entry>, polls: seq<Status>, expired: bool, maxRetries: nat) returns (v: Verdict)
      requires ProperSet(initial)
      modifies this
      ensures !v.StoppedShort?
      ensures v.Raises? <==>
                !continuous || !enableDocumentListener
                || exists n | 0 <= n < |polls| ::
                     && polls[n].activity.Idle? && polls[n].error.Some? && IdleCount(polls, n) < maxRetries
                     && MissingUntil(initial, old(documentUpdates), polls, n)
      ensures v.AllSeen? ==>
                && v.n < |polls| && polls[v.n].activity.Idle? && polls[v.n].error.None?
                && AllFulfilled(initial, CacheAfter(old(documentUpdates), polls, v.n + 1))
                && IdleCount(polls, v.n) < maxRetries
                && MissingUntil(initial, old(documentUpdates), polls, v.n)
      ensures v.TimedOut? ==>
                IdleCount(polls, |polls|) >= maxRetries
                && forall j | 0 <= j < |polls| && polls[j].activity.Idle? && IdleCount(polls, j) < maxRetries ::
                     StillMissing(initial, old(documentUpdates), polls, j)
      ensures (v.Waiting? ==> !expired) && (v.IdleTimedOut? ==> expired)
      ensures v.Waiting? || v.IdleTimedOut? ==>
                IdleCount(polls, |polls|) < maxRetries
                && MissingUntil(initial, old(documentUpdates), polls, |polls|)
    {
      if !continuous || !enableDocumentListener {
        return Raises;
      }
      ghost var cache := documentUpdates;
      var events, processed := initial, 0;
      var iteration, n := 0, 0;
      while iteration < maxRetries
        invariant n <= |polls|
        invariant documentUpdates == CacheAfter(cache, polls, n)
        invariant processed <= |documentUpdates|
        invariant events == Remaining(initial, documentUpdates[..processed])
        invariant iteration == IdleCount(polls, n) <= maxRetries
        invariant MissingUntil(initial, cache, polls, n)
        decreases |polls| - n
      {
        // wait_for(IDLE): poll until the replicator is idle
        while n < |polls| && !polls[n].activity.Idle?
          invariant n <= |polls|
          invariant documentUpdates == CacheAfter(cache, polls, n)
          invariant processed <= |documentUpdates|
          invariant events == Remaining(initial, documentUpdates[..processed])
          invariant iteration == IdleCount(polls, n)
          invariant MissingUntil(initial, cache, polls, n)
        {
          assert (documentUpdates + polls[n].documents)[..processed] == documentUpdates[..processed];
          GetStatus(polls[n]);
          n := n + 1;
        }
        if n == |polls| {
          return if expired then IdleTimedOut else Waiting;
        }
        assert (documentUpdates + polls[n].documents)[..processed] == documentUpdates[..processed];
        GetStatus(polls[n]);
        if polls[n].error.Some? {
          return Raises;
        }
        events, processed := Scan(events, processed, initial);
        assert documentUpdates[..processed] == documentUpdates;
        IdleCountGrows(polls, n + 1);
        assert StillMissing(initial, cache, polls, n) <==> events != {};
        if events == {} {
          return AllSeen(n);
        }
        n := n + 1;
        iteration := iteration + 1;
      }
      IdleCountGrows(polls, n);
      v := TimedOut;
    }

    /** Looks through the events not processed yet, for the first that matches; the length if none does. */
    method FirstMatch(events: set<Entry>, from: nat) returns (processed: nat)
      requires from <= |documentUpdates| && NoneOf(events, documentUpdates[..from])
      ensures processed <= |documentUpdates| && NoneOf(events, documentUpdates[..processed])
      ensures processed < |documentUpdates| ==> FirstAny(events, documentUpdates, processed)
    {
      processed := from;
      while processed < |documentUpdates|
        invariant processed <= |documentUpdates| && NoneOf(events, documentUpdates[..processed])
      {
        var entry := AnyEntry(documentUpdates[processed]);
        AnyLookupIsFulfilment(events, documentUpdates[processed]);
        if exists m | m in events :: Same(entry, m) {
          return;
        }
        assert documentUpdates[..processed + 1] == documentUpdates[..processed] + [documentUpdates[processed]];
        processed := processed + 1;
      }
    }

    /** Waits for any of the events; answers with the entry of the first one cached, or None after
        the replicator was idle `maxRetries` times without any. `expired` says whether, after the
        responses `polls`, the time to wait for the next idle one has run out. */
    method WaitForAnyDocEvent(events: set<Entry>, polls: seq<Status>, expired: bool, maxRetries: nat) returns (v: AnyVerdict)
      modifies this
      ensures v.AnyRaises? <==>
                !continuous || !enableDocumentListener
                || exists n | 0 <= n < |polls| ::
                     && polls[n].activity.Idle? && polls[n].error.Some? && IdleCount(polls, n) < maxRetries
                     && NoneUntil(events, old(documentUpdates), polls, n)
      ensures v.Found? ==>
                && v.n < |polls| && polls[v.n].activity.Idle? && polls[v.n].error.None?
                && IdleCount(polls, v.n) < maxRetries
                && NoneUntil(events, old(documentUpdates), polls, v.n)
                && FirstAny(events, CacheAfter(old(documentUpdates), polls, v.n + 1), v.at)
                && v.entry == AnyEntry(CacheAfter(old(documentUpdates), polls, v.n + 1)[v.at])
      ensures v.NoneFound? ==> IdleCount(polls, |polls|) >= maxRetries
      ensures (v.Undecided? ==> !expired) && (v.NotIdle? ==> expired)
      ensures v.Undecided? || v.NotIdle? ==> IdleCount(polls, |polls|) < maxRetries
      ensures v.NoneFound? || v.Undecided? || v.NotIdle? ==>
                forall n | 0 <= n < |polls| && polls[n].activity.Idle? && IdleCount(polls, n) < maxRetries ::
                  NoneYet(events, old(documentUpdates), polls, n)
    {
      if !continuous || !enableDocumentListener {
        return AnyRaises;
      }
      ghost var cache := documentUpdates;
      var processed, iteration, n := 0, 0, 0;
      while iteration < maxRetries
        invariant n <= |polls|
        invariant documentUpdates == CacheAfter(cache, polls, n)
        invariant processed <= |documentUpdates| && NoneOf(events, documentUpdates[..processed])
        invariant iteration == IdleCount(polls, n) <= maxRetries
        invariant NoneUntil(events, cache, polls, n)
        decreases |polls| - n
      {
        while n < |polls| && !polls[n].activity.Idle?
          invariant n <= |polls|
          invariant documentUpdates == CacheAfter(cache, polls, n)
          invariant processed <= |documentUpdates| && NoneOf(events, documentUpdates[..processed])
          invariant iteration == IdleCount(polls, n)
          invariant NoneUntil(events, cache, polls, n)
        {
          assert (documentUpdates + polls[n].documents)[..processed] == documentUpdates[..processed];
          GetStatus(polls[n]);
          n := n + 1;
        }
        if n == |polls| {
          return if expired then NotIdle else Undecided;
        }
        assert (documentUpdates + polls[n].documents)[..processed] == documentUpdates[..processed];
        GetStatus(polls[n]);
        if polls[n].error.Some? {
          return AnyRaises;
        }
        processed := FirstMatch(events, processed);
        if processed < |documentUpdates| {
          MatchFound(events, documentUpdates, processed);
          IdleCountGrows(polls, n + 1);
          assert !NoneYet(events, cache, polls, n);
          return Found(n, AnyEntry(documentUpdates[processed]), processed);
        }
        assert documentUpdates[..processed] == documentUpdates;
        assert NoneYet(events, cache, polls, n);
        n := n + 1;
        iteration := iteration + 1;
      }
      IdleCountGrows(polls, n);
      v := NoneFound;
    }
  }

  /** How many of the first `n` responses found the replicator idle. */
  function IdleCount(polls: seq<Status>, n: nat): nat
    requires n <= |polls|
  {
    if n == 0 then 0 else IdleCount(polls, n - 1) + if polls[n - 1].activity.Idle? then 1 else 0
  }

  /** That many positions among the first `n` are those of idle responses. */
  lemma {:induction false} IdleCountCounts(polls: seq<Status>, n: nat)
    requires n <= |polls|
    ensures IdleCount(polls, n) == |set j | 0 <= j < n && polls[j].activity.Idle?|
  {
    if n > 0 {
      IdleCountCounts(polls, n - 1);
      var before, now := set j | 0 <= j < n - 1 && polls[j].activity.Idle?, set j | 0 <= j < n && polls[j].activity.Idle?;
      assert now == before + if polls[n - 1].activity.Idle? then {n - 1} else {};
    }
  }

  lemma {:induction false} IdleCountGrows(polls: seq<Status>, n: nat)
    requires n <= |polls|
    ensures forall m | n <= m <= |polls| :: IdleCount(polls, m) >= IdleCount(polls, n)
    decreases |polls| - n
  {
    if n < |polls| {
      IdleCountGrows(polls, n + 1);
    }
  }

  /** After response `n`, an idle one, there was no error and some entry was unseen. */
  predicate StillMissing(initial: set<Entry>, cache: seq<DocEvent>, polls: seq<Status>, n: nat)
    requires n < |polls|
  {
    polls[n].error.None? && !AllFulfilled(initial, CacheAfter(cache, polls, n + 1))
  }

  /** None of the first `n` responses that found the replicator idle settled the wait for all events. */
  predicate MissingUntil(initial: set<Entry>, cache: seq<DocEvent>, polls: seq<Status>, n: nat)
    requires n <= |polls|
  {
    forall j | 0 <= j < n && polls[j].activity.Idle? :: StillMissing(initial, cache, polls, j)
  }

  // ---------------------------------------------------------------- waiting for any event

  // NotIdle: the replicator did not become idle in time.
  datatype AnyVerdict = Undecided | Found(n: nat, entry: Entry, at: nat) | NoneFound | NotIdle | AnyRaises

  /** The entry that the wait for any event looks up: it leaves the error out. */
  function AnyEntry(e: DocEvent): Entry {
    Entry(e.collection, e.documentID, DirectionOf(e), Some(e.flags), None, None)
  }

  predicate MatchesAny(events: set<Entry>, e: DocEvent) {
    exists m | m in events :: FulfilsUpToError(e, m)
  }

  /** The event fulfils the entry, but for its own error; the entry must have none. */
  predicate FulfilsUpToError(e: DocEvent, m: Entry) {
    && e.collection == m.collection && e.documentID == m.id
    && (m.direction.Push? ==> e.isPush) && (m.direction.Pull? ==> !e.isPush)
    && (m.flags.Some? ==> m.flags.value == e.flags)
    && m.errDomain == None && m.errCode == None
  }

  /** The entry that the wait answers with describes the event fully, but for its error. */
  lemma AnyEntryDescribes(e: DocEvent)
    ensures FulfilsUpToError(e, AnyEntry(e)) && AnyEntry(e).flags == Some(e.flags) && !AnyEntry(e).direction.PushAndPull?
  {
  }

  lemma AnyLookupIsFulfilment(events: set<Entry>, e: DocEvent)
    ensures MatchesAny(events, e) <==> exists m | m in events :: Same(AnyEntry(e), m)
  {
    forall m ensures Same(AnyEntry(e), m) <==> FulfilsUpToError(e, m) {
    }
  }

  predicate NoneOf(events: set<Entry>, cache: seq<DocEvent>) {
    forall i | 0 <= i < |cache| :: !MatchesAny(events, cache[i])
  }

  /** Response `n` brought no error, and nothing cached by then matches. */
  predicate NoneYet(events: set<Entry>, cache: seq<DocEvent>, polls: seq<Status>, n: nat)
    requires n < |polls|
  {
    polls[n].error.None? && NoneOf(events, CacheAfter(cache, polls, n + 1))
  }

  /** None of the first `n` responses that found the replicator idle settled the wait for any event. */
  predicate NoneUntil(events: set<Entry>, cache: seq<DocEvent>, polls: seq<Status>, n: nat)
    requires n <= |polls|
  {
    forall j | 0 <= j < n && polls[j].activity.Idle? :: NoneYet(events, cache, polls, j)
  }

  lemma MatchFound(events: set<Entry>, cache: seq<DocEvent>, at: nat)
    requires at < |cache| && MatchesAny(events, cache[at])
    ensures !NoneOf(events, cache)
  {
  }

  predicate FirstAny(events: set<Entry>, cache: seq<DocEvent>, at: nat) {
    at < |cache| && MatchesAny(events, cache[at]) && NoneOf(events, cache[..at])
  }

  /** The wait for any event agrees with the other waits on what matches exactly for the events
      that carry no error. */
  lemma AnyMatchIgnoresErrors(e: DocEvent)
    ensures (forall m :: Same(AnyEntry(e), m) <==> Same(EntryOf(e), m)) <==> e.error.None?
  {
    if e.error.Some? {
      var m := AnyEntry(e);
      assert Same(AnyEntry(e), m) && !Same(EntryOf(e), m);
    }
  }
}

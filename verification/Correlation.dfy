/** Requests and responses between the client and several test servers over WebSockets: the
    client's router pairs each response with the future registered for its request number. */
module Correlation {
  import opened Wrappers
  import opened Json

  /** A JSON object on the wire. */
  type Message = map<string, Json>

  function Number(n: int): Json { Num(n as real) }

  /** The request number that the `ts_id` of a message stands for, if it can be one. In Python `True`
      is found under the number 1. */
  function TsId(m: Message): Option<int> {
    if "ts_id" !in m then None
    else
      match m["ts_id"]
      case Num(n) => if n.Floor as real == n then Some(n.Floor) else None
      case Bool(b) => Some(if b then 1 else 0)
      case _ => None
  }

  /** The number is a whole `Num`, or one of the booleans that equal it. */
  predicate HasNumber(m: Message, id: int) {
    "ts_id" in m && (m["ts_id"] == Num(id as real) || (m["ts_id"] == Bool(id == 1) && (id == 0 || id == 1)))
  }

  lemma NumberOf(m: Message, id: int)
    ensures TsId(m) == Some(id) <==> HasNumber(m, id)
  {
    assert (id as real).Floor == id;
  }

  // ---------------------------------------------------------------- what is sent

  /** The message for a request: its payload, with the number and the command set over it. */
  function RequestMessage(payload: Message, id: int, httpName: string): Message {
    payload["ts_id" := Number(id)]["ts_command" := Str("/" + httpName)]
  }

  /** The test server drops any other message without a response. */
  predicate Acceptable(request: Message) {
    && "ts_id" in request && request["ts_id"].Num?
    && "ts_command" in request && request["ts_command"].Str? && "/" <= request["ts_command"].s
  }

  lemma RequestsAreAcceptable(payload: Message, id: int, httpName: string)
    ensures Acceptable(RequestMessage(payload, id, httpName))
    ensures TsId(RequestMessage(payload, id, httpName)) == Some(id)
  {
    var m := RequestMessage(payload, id, httpName);
    assert m["ts_command"] == Str("/" + httpName);
    assert (id as real).Floor == id;
  }

  /** A request carries the number and the command, and of its payload everything else. */
  lemma RequestCarries(payload: Message, id: int, httpName: string)
    ensures var m := RequestMessage(payload, id, httpName);
            && m.Keys == payload.Keys + {"ts_id", "ts_command"}
            && m["ts_id"] == Num(id as real) && m["ts_command"] == Str("/" + httpName)
            && forall k | k in payload && k != "ts_id" && k != "ts_command" :: m[k] == payload[k]
  {
  }

  datatype Outcome = Returned(result: Message) | Threw(error: Json)

  /** The response of a server: the request's number echoed, the result's entries set over it. */
  function ResponseMessage(request: Message, serverID: string, apiVersion: int, o: Outcome): Message
    requires Acceptable(request)
  {
    var head: Message := map[
      "ts_id" := request["ts_id"], "ts_serverID" := Str(serverID), "ts_apiVersion" := Number(apiVersion)];
    match o
    case Returned(result) => head + result
    case Threw(error) => head["ts_error" := error]
  }

  /** A response carries the whole result, or just the error, and is headed by the request's number and
      the server's ID and version where the result has no such entries. */
  ghost predicate Reports(response: Message, request: Message, serverID: string, apiVersion: int, o: Outcome)
    requires "ts_id" in request
  {
    match o
    case Returned(result) =>
      && response.Keys == result.Keys + {"ts_id", "ts_serverID", "ts_apiVersion"}
      && (forall k | k in result :: response[k] == result[k])
      && ("ts_id" !in result ==> response["ts_id"] == request["ts_id"])
      && ("ts_serverID" !in result ==> response["ts_serverID"] == Str(serverID))
      && ("ts_apiVersion" !in result ==> response["ts_apiVersion"] == Num(apiVersion as real))
    case Threw(error) =>
      response == map["ts_id" := request["ts_id"], "ts_serverID" := Str(serverID),
                      "ts_apiVersion" := Num(apiVersion as real), "ts_error" := error]
  }

  lemma ResponseReports(request: Message, serverID: string, apiVersion: int, o: Outcome)
    requires Acceptable(request)
    ensures Reports(ResponseMessage(request, serverID, apiVersion, o), request, serverID, apiVersion, o)
  {
  }

  /** A response carries its request's number exactly when the result does not overwrite it. */
  lemma ResponseEchoes(request: Message, serverID: string, apiVersion: int, o: Outcome, id: int)
    requires Acceptable(request) && TsId(request) == Some(id)
    ensures TsId(ResponseMessage(request, serverID, apiVersion, o)) == Some(id)
            <==> (o.Returned? && "ts_id" in o.result ==> TsId(o.result) == Some(id))
  {
    assert (id as real).Floor == id;
    assert request["ts_id"] == Number(id);
  }

  // ---------------------------------------------------------------- the router

  datatype FutureState = Waiting | Completed(data: Message) | Stopped

  class Future {
    var state: FutureState

    constructor ()
      ensures state == Waiting
    {
      state := Waiting;
    }

    /** Completing a future a second time would raise. */
    method SetResult(data: Message)
      requires state == Waiting
      modifies this
      ensures state == Completed(data)
    {
      state := Completed(data);
    }

    method SetException()
      requires state == Waiting
      modifies this
      ensures state == Stopped
    {
      state := Stopped;
    }
  }

  /** The request number whose future a message completes, if any. */
  function Completes(stopping: bool, pending: set<int>, data: Message): Option<int> {
    if !stopping && TsId(data).Some? && TsId(data).value in pending then TsId(data) else None
  }

  /** A message completes the future of its number if that is pending, and none once stop has begun. */
  lemma CompletesWhen(stopping: bool, pending: set<int>, data: Message, id: int)
    ensures Completes(stopping, pending, data) == Some(id) <==> !stopping && id in pending && HasNumber(data, id)
  {
    NumberOf(data, id);
  }

  lemma NotEmpty(s: set<int>)
    requires s != {}
    ensures exists id :: id in s
  {
    assert (forall id :: id !in s) ==> s == {};
  }

  lemma ValueHasKey(m: map<int, Future>, f: Future)
    ensures f in m.Values <==> exists id :: id in m && m[id] == f
  {
    assert (forall id | id in m :: m[id] != f) ==> f !in m.Values;
  }

  /** Tells whoever waits for these futures that there will be no response. */
  method TellAll(waiting: map<int, Future>)
    requires forall id | id in waiting :: waiting[id].state == Waiting
    requires forall i, j | i in waiting && j in waiting && i != j :: waiting[i] != waiting[j]
    modifies waiting.Values
    ensures forall id | id in waiting :: waiting[id].state == Stopped
  {
    var todo := waiting.Keys;
    while todo != {}
      invariant todo <= waiting.Keys
      invariant forall id | id in todo :: id in waiting && waiting[id].state == Waiting
      invariant forall id | id in waiting && id !in todo :: waiting[id].state == Stopped
      decreases todo
    {
      NotEmpty(todo);
      var id :| id in todo;
      assert waiting[id] in waiting.Values;
      waiting[id].SetException();
      todo := todo - {id};
    }
  }

  class WebSocketRouter {
    var pending: map<int, Future>
    var stopping: bool
    ghost var issued: map<int, Future>

    /** Every pending future is incomplete, and each future belongs to one number. */
    ghost predicate Valid()
      reads this, issued.Values
    {
      && (forall id | id in pending :: id in issued && pending[id] == issued[id])
      && (forall id | id in pending :: issued[id].state == Waiting)
      && (forall i, j | i in issued && j in issued && i != j :: issued[i] != issued[j])
    }

    /** The router is the client of the system `s`. */
    ghost predicate Follows(s: System)
      reads this, issued.Values
    {
      && s.stopping == stopping && s.pending == pending.Keys
      && s.futures.Keys == issued.Keys && forall id | id in issued :: s.futures[id] == issued[id].state
    }

    constructor ()
      ensures Valid() && pending == map[] && !stopping
      ensures forall connected: set<string> :: Follows(Init(connected))
    {
      pending, stopping, issued := map[], false, map[];
    }

    method Register(id: int) returns (f: Future)
      requires Valid()
      modifies this
      ensures Valid() && fresh(f) && f.state == Waiting
      ensures pending == old(pending)[id := f] && issued == old(issued)[id := f] && stopping == old(stopping)
      ensures forall s: System, step: Step | old(Follows(s)) && step.Send? && Enabled(s, step) && s.nextId == id ::
                Follows(Next(s, step))
    {
      f := new Future();
      pending := pending[id := f];
      issued := issued[id := f];
    }

    /** One text message from a server: whether the handler goes on reading. */
    method OnMessage(data: Message) returns (goesOn: bool)
      requires Valid()
      modifies this, pending.Values
      ensures Valid() && stopping == old(stopping) && issued == old(issued) && goesOn == !stopping
      ensures match Completes(stopping, old(pending.Keys), data)
              case Some(id) => pending == old(pending) - {id} && old(pending)[id].state == Completed(data)
              case None => pending == old(pending)
      ensures forall s: System, n: int | old(Follows(s)) && Enabled(s, ClientReceives(n)) && s.transit[n].response == data ::
                Follows(Next(s, ClientReceives(n)))
    {
      if stopping {
        return false;
      }
      var id := TsId(data);
      if id.Some? && id.value in pending {
        var future := pending[id.value];
        pending := pending - {id.value};
        future.SetResult(data);
      }
      goesOn := true;
    }

    /** The start of `stop`, and its end, when connections are closed: whoever still waits is told. */
    method Stop()
      requires Valid()
      modifies this, pending.Values
      ensures Valid() && stopping && pending == map[] && issued == old(issued)
      ensures forall id | id in old(pending) :: old(pending)[id].state == Stopped
      ensures forall s: System | old(Follows(s)) && Enabled(s, StopBegins) && !s.stopped ::
                Follows(Next(Next(s, StopBegins), StopEnds))
    {
      stopping := true;
      forall id | id in issued ensures issued[id] in pending.Values <==> id in pending {
        ValueHasKey(pending, issued[id]);
      }
      TellAll(pending);
      pending := map[];
      assert forall id | id in issued ::
          issued[id].state == if id in old(pending) then Stopped else old(issued[id].state);
      forall s: System | old(Follows(s)) && Enabled(s, StopBegins) && !s.stopped
        ensures Follows(Next(Next(s, StopBegins), StopEnds))
      {
        assert forall id | id in issued :: id in s.futures && s.futures[id] == old(issued[id].state);
      }
    }
  }

  // ---------------------------------------------------------------- the whole system, in steps

  /** Where a request is. It travels to its server, is handled, and its response travels back. */
  datatype Transit =
    | Unsent
    | ToServer(server: string, request: Message)
    | Handling(server: string, request: Message)
    | ToClient(server: string, response: Message)
    | Gone

  /** The client, the servers that are connected, each by the ID that it puts in its responses, and
      what is on its way. `requests`, `sentTo` and `outcomes` are history. */
  datatype System = System(
    connected: set<string>,
    nextId: int,
    futures: map<int, FutureState>,
    pending: set<int>,
    stopping: bool,
    stopped: bool,
    transit: map<int, Transit>,
    requests: map<int, Message>,
    sentTo: map<int, string>,
    outcomes: map<int, Outcome>)

  datatype Step =
    | Send(server: string, payload: Message, httpName: string)
    | ServerReceives(id: int)
    | HandlerEnds(id: int, outcome: Outcome)   // handlers may end in any order
    | ClientReceives(id: int)                  // messages may arrive in any order
    | StopBegins
    | StopEnds

  function Init(connected: set<string>): System {
    System(connected, 1, map[], {}, false, false, map[], map[], map[], map[])
  }

  const API_VERSION := 1

  predicate Enabled(s: System, step: Step) {
    match step
    case Send(_, _, _) => !s.stopped
    case ServerReceives(id) => id in s.transit && s.transit[id].ToServer?
    case HandlerEnds(id, _) => id in s.transit && s.transit[id].Handling? && Acceptable(s.transit[id].request)
    case ClientReceives(id) => id in s.transit && s.transit[id].ToClient?
    case StopBegins => !s.stopping
    case StopEnds => s.stopping && !s.stopped
  }

  function Next(s: System, step: Step): System
    requires Enabled(s, step)
  {
    match step
    case Send(server, payload, httpName) =>
      var id := s.nextId;
      var request := RequestMessage(payload, id, httpName);
      s.(nextId := id + 1,
         futures := s.futures[id := Waiting],
         pending := s.pending + {id},
         requests := s.requests[id := request],
         sentTo := s.sentTo[id := server],
         // without a connection, the write raises after the future was registered
         transit := s.transit[id := if server in s.connected then ToServer(server, request) else Unsent])
    case ServerReceives(id) =>
      var t := s.transit[id];
      s.(transit := s.transit[id := if Acceptable(t.request) then Handling(t.server, t.request) else Gone])
    case HandlerEnds(id, o) =>
      var t := s.transit[id];
      s.(transit := s.transit[id := ToClient(t.server, ResponseMessage(t.request, t.server, API_VERSION, o))],
         outcomes := s.outcomes[id := o])
    case ClientReceives(id) =>
      var data := s.transit[id].response;
      var s' := s.(transit := s.transit[id := Gone]);
      (match Completes(s.stopping, s.pending, data)
       case Some(n) => s'.(pending := s.pending - {n}, futures := s.futures[n := Completed(data)])
       case None => s')
    case StopBegins => s.(stopping := true)
    case StopEnds =>
      s.(stopped := true, pending := {},
         futures := map id | id in s.futures :: if id in s.pending then Stopped else s.futures[id])
  }

  /** A server handles a request with a numeric `ts_id` and a text beginning with "/" as `ts_command`,
      and drops any other. */
  lemma HandledOrDropped(s: System, id: int)
    requires Enabled(s, ServerReceives(id))
    ensures var t, request := Next(s, ServerReceives(id)).transit[id], s.transit[id].request;
            if (exists n :: ("ts_id", Num(n)) in request.Items)
               && (exists c: string :: ("ts_command", Str("/" + c)) in request.Items)
            then t == Handling(s.transit[id].server, request) else t == Gone
  {
    var request := s.transit[id].request;
    if Acceptable(request) {
      assert ("ts_id", Num(request["ts_id"].n)) in request.Items;
      assert request["ts_command"] == Str("/" + request["ts_command"].s[1..]);
      assert ("ts_command", Str("/" + request["ts_command"].s[1..])) in request.Items;
    }
  }

  function Run(connected: set<string>, steps: seq<Step>): Option<System> {
    if steps == [] then Some(Init(connected))
    else
      match Run(connected, steps[..|steps| - 1])
      case None => None
      case Some(s) => if Enabled(s, steps[|steps| - 1]) then Some(Next(s, steps[|steps| - 1])) else None
  }

  /** A handler's result carries no request number, or its own request's. */
  predicate CleanStep(step: Step) {
    step.HandlerEnds? && step.outcome.Returned? && "ts_id" in step.outcome.result ==>
      TsId(step.outcome.result) == Some(step.id)
  }

  predicate Clean(steps: seq<Step>) {
    forall i | 0 <= i < |steps| :: CleanStep(steps[i])
  }

  /** The response that the request's own server gave to it. */
  predicate OwnResponse(s: System, id: int, data: Message) {
    && id in s.requests && id in s.sentTo && id in s.outcomes && Acceptable(s.requests[id])
    && data == ResponseMessage(s.requests[id], s.sentTo[id], API_VERSION, s.outcomes[id])
  }

  /** What is on its way belongs to the request it is filed under. */
  predicate TransitOk(s: System, id: int)
    requires id in s.transit
  {
    && id in s.requests && id in s.sentTo
    && Acceptable(s.requests[id]) && TsId(s.requests[id]) == Some(id)
    && (s.transit[id].Unsent? || s.transit[id].ToServer? || s.transit[id].Handling? ==> id !in s.outcomes)
    && match s.transit[id]
       case ToServer(server, request) => server == s.sentTo[id] && request == s.requests[id]
       case Handling(server, request) => server == s.sentTo[id] && request == s.requests[id]
       case ToClient(server, response) => server == s.sentTo[id] && OwnResponse(s, id, response) && TsId(response) == Some(id)
       case _ => true
  }

  /** A completed future holds the response to its own request. */
  predicate FutureOk(s: System, id: int)
    requires id in s.futures
  {
    s.futures[id].Completed? ==> OwnResponse(s, id, s.futures[id].data) && id in s.transit && s.transit[id].Gone?
  }

  /** The invariant of the client's books, whatever handlers return: the numbers issued are those
      with a future, and the incomplete ones are pending. */
  ghost predicate Book(s: System) {
    && s.nextId >= 1
    && (forall id :: id in s.futures <==> 1 <= id < s.nextId)
    && (forall id | id in s.futures :: s.futures[id].Waiting? <==> id in s.pending)
    && (forall id | id in s.futures :: s.futures[id].Stopped? ==> s.stopped)
    && s.pending <= s.futures.Keys
    && (s.stopped ==> s.stopping && s.pending == {})
  }

  lemma StepKeepsBook(s: System, step: Step)
    requires Book(s) && Enabled(s, step)
    ensures Book(Next(s, step))
  {
  }

  lemma {:induction false} RunKeepsBook(connected: set<string>, steps: seq<Step>)
    requires Run(connected, steps).Some?
    ensures Book(Run(connected, steps).value)
  {
    if steps != [] {
      RunKeepsBook(connected, steps[..|steps| - 1]);
      StepKeepsBook(Run(connected, steps[..|steps| - 1]).value, steps[|steps| - 1]);
    }
  }

  /** The invariant of the whole system. */
  ghost predicate Inv(s: System) {
    && Book(s)
    && s.transit.Keys == s.requests.Keys == s.sentTo.Keys == s.futures.Keys
    && s.outcomes.Keys <= s.futures.Keys
    && (forall id | id in s.transit :: TransitOk(s, id))
    && (forall id | id in s.futures :: FutureOk(s, id))
  }

  lemma SendKeepsInv(s: System, step: Step)
    requires Inv(s) && step.Send? && Enabled(s, step)
    ensures Inv(Next(s, step))
  {
    StepKeepsBook(s, step);
    RequestsAreAcceptable(step.payload, s.nextId, step.httpName);
    var t := Next(s, step);
    assert s.nextId !in s.futures && s.nextId !in s.outcomes;
    assert TransitOk(t, s.nextId);
    forall id | id in s.transit ensures TransitOk(t, id) && FutureOk(t, id) {
      OtherKept(s, t, id);
    }
  }

  /** A request that a step does not touch stays as it was. */
  lemma OtherKept(s: System, t: System, id: int)
    requires id in s.transit && id in t.transit && id in s.futures && id in t.futures
    requires TransitOk(s, id) && FutureOk(s, id)
    requires t.transit[id] == s.transit[id] && t.futures[id] == s.futures[id]
    requires id in t.requests && t.requests[id] == s.requests[id]
    requires id in t.sentTo && t.sentTo[id] == s.sentTo[id]
    requires if id in s.outcomes then id in t.outcomes && t.outcomes[id] == s.outcomes[id] else id !in t.outcomes
    ensures TransitOk(t, id) && FutureOk(t, id)
  {
  }

  /** Moving one message along. */
  lemma MoveKeepsInv(s: System, id: int, to: Transit)
    requires Inv(s) && id in s.transit && (s.transit[id].Gone? ==> to.Gone?)
    requires TransitOk(s.(transit := s.transit[id := to]), id)
    ensures Inv(s.(transit := s.transit[id := to]))
  {
    var t := s.(transit := s.transit[id := to]);
    assert t.transit.Keys == s.transit.Keys;
    assert FutureOk(s, id);
    assert FutureOk(t, id);
    forall i | i in s.transit && i != id ensures TransitOk(t, i) && FutureOk(t, i) {
      OtherKept(s, t, i);
    }
  }

  lemma ServerReceivesKeepsInv(s: System, step: Step)
    requires Inv(s) && step.ServerReceives? && Enabled(s, step)
    ensures Inv(Next(s, step))
  {
    var t := s.transit[step.id];
    assert TransitOk(s, step.id);
    MoveKeepsInv(s, step.id, if Acceptable(t.request) then Handling(t.server, t.request) else Gone);
  }

  /** A handler's outcome is recorded, and the response `to` sent off. */
  function Answering(s: System, id: int, to: Transit, o: Outcome): System {
    s.(transit := s.transit[id := to], outcomes := s.outcomes[id := o])
  }

  lemma AnswerKeepsInv(s: System, id: int, to: Transit, o: Outcome)
    requires Inv(s) && id in s.transit && s.transit[id].Handling?
    requires TransitOk(Answering(s, id, to, o), id)
    ensures Inv(Answering(s, id, to, o))
  {
    var t := Answering(s, id, to, o);
    assert t.transit.Keys == s.transit.Keys;
    assert t.outcomes.Keys == s.outcomes.Keys + {id};
    assert FutureOk(s, id);
    assert FutureOk(t, id);
    forall i | i in s.transit && i != id ensures TransitOk(t, i) && FutureOk(t, i) {
      OtherKept(s, t, i);
    }
  }

  lemma HandlerEndsKeepsInv(s: System, step: Step)
    requires Inv(s) && step.HandlerEnds? && Enabled(s, step) && CleanStep(step)
    ensures Inv(Next(s, step))
  {
    assert TransitOk(s, step.id);
    AnswerOk(s, step);
    var at := s.transit[step.id];
    AnswerKeepsInv(s, step.id, ToClient(at.server, ResponseMessage(at.request, at.server, API_VERSION, step.outcome)),
                   step.outcome);
  }

  lemma AnswerOk(s: System, step: Step)
    requires step.HandlerEnds? && Enabled(s, step) && CleanStep(step) && TransitOk(s, step.id)
    ensures TransitOk(Next(s, step), step.id)
  {
    ResponseEchoes(s.requests[step.id], s.sentTo[step.id], API_VERSION, step.outcome, step.id);
  }

  lemma ClientKeepsInv(s: System, step: Step)
    requires Inv(s) && step.ClientReceives? && Enabled(s, step)
    ensures Inv(Next(s, step))
  {
    var id, data := step.id, s.transit[step.id].response;
    var moved := s.(transit := s.transit[id := Gone]);
    assert TransitOk(s, id);
    assert OwnResponse(s, id, data) && TsId(data) == Some(id);
    assert TransitOk(moved, id);
    MoveKeepsInv(s, id, Gone);
    if !s.stopping && id in s.pending {
      CompletingKeepsInv(moved, id, data);
      assert Next(s, step) == Completing(moved, id, data);
    } else {
      assert Next(s, step) == moved;
    }
  }

  function Completing(s: System, id: int, data: Message): System {
    s.(pending := s.pending - {id}, futures := s.futures[id := Completed(data)])
  }

  lemma CompletingKeepsBook(s: System, id: int, data: Message)
    requires Book(s) && id in s.pending && !s.stopped
    ensures Book(Completing(s, id, data))
  {
  }

  lemma CompletingKeepsInv(s: System, id: int, data: Message)
    requires Inv(s) && id in s.pending && !s.stopped && s.transit[id].Gone? && OwnResponse(s, id, data)
    ensures Inv(Completing(s, id, data))
  {
    var t := Completing(s, id, data);
    CompletingKeepsBook(s, id, data);
    assert t.futures.Keys == s.futures.Keys;
    assert TransitOk(s, id);
    assert TransitOk(t, id) && FutureOk(t, id);
    forall i | i in s.transit && i != id ensures TransitOk(t, i) && FutureOk(t, i) {
      OtherKept(s, t, i);
    }
  }

  lemma StopKeepsInv(s: System, step: Step)
    requires Inv(s) && (step.StopBegins? || step.StopEnds?) && Enabled(s, step)
    ensures Inv(Next(s, step))
  {
    StepKeepsBook(s, step);
    var t := Next(s, step);
    assert t.futures.Keys == s.futures.Keys;
    forall id | id in t.transit ensures TransitOk(t, id) {
      assert TransitOk(s, id);
    }
    forall id | id in t.futures ensures FutureOk(t, id) {
      assert FutureOk(s, id);
    }
  }

  lemma {:induction false} RunKeepsInv(connected: set<string>, steps: seq<Step>)
    requires Run(connected, steps).Some? && Clean(steps)
    ensures Inv(Run(connected, steps).value)
  {
    if steps != [] {
      var most, step := steps[..|steps| - 1], steps[|steps| - 1];
      assert forall i | 0 <= i < |most| :: most[i] == steps[i];
      RunKeepsInv(connected, most);
      var s := Run(connected, most).value;
      match step
      case Send(_, _, _) => SendKeepsInv(s, step);
      case ServerReceives(_) => ServerReceivesKeepsInv(s, step);
      case HandlerEnds(_, _) => HandlerEndsKeepsInv(s, step);
      case ClientReceives(_) => ClientKeepsInv(s, step);
      case StopBegins => StopKeepsInv(s, step);
      case StopEnds => StopKeepsInv(s, step);
    }
  }

  // ---------------------------------------------------------------- the promises

  /** A future is only ever completed with its own server's response to its own request. */
  lemma OnlyOwnResponses(connected: set<string>, steps: seq<Step>, id: int)
    requires Run(connected, steps).Some? && Clean(steps)
    requires var s := Run(connected, steps).value; id in s.futures && s.futures[id].Completed?
    ensures var s := Run(connected, steps).value; OwnResponse(s, id, s.futures[id].data)
  {
    RunKeepsInv(connected, steps);
    assert FutureOk(Run(connected, steps).value, id);
  }

  /** It reports what the server's handler made of the request. */
  lemma CompletedReports(connected: set<string>, steps: seq<Step>, id: int)
    requires Run(connected, steps).Some? && Clean(steps)
    requires var s := Run(connected, steps).value; id in s.futures && s.futures[id].Completed?
    ensures var s := Run(connected, steps).value;
            && id in s.requests && id in s.sentTo && id in s.outcomes && HasNumber(s.requests[id], id)
            && Reports(s.futures[id].data, s.requests[id], s.sentTo[id], API_VERSION, s.outcomes[id])
            && HasNumber(s.futures[id].data, id)
  {
    OnlyOwnResponses(connected, steps, id);
    RunKeepsInv(connected, steps);
    var s := Run(connected, steps).value;
    ResponseReports(s.requests[id], s.sentTo[id], API_VERSION, s.outcomes[id]);
    assert TransitOk(s, id);
    NumberOf(s.requests[id], id);
    EndedCleanly(connected, steps, id);
    ResponseEchoes(s.requests[id], s.sentTo[id], API_VERSION, s.outcomes[id], id);
    NumberOf(s.futures[id].data, id);
  }

  /** The results recorded are those the handlers ended with. */
  lemma {:induction false} EndedCleanly(connected: set<string>, steps: seq<Step>, id: int)
    requires Run(connected, steps).Some? && Clean(steps) && id in Run(connected, steps).value.outcomes
    ensures CleanStep(HandlerEnds(id, Run(connected, steps).value.outcomes[id]))
  {
    if steps != [] {
      var most, step := steps[..|steps| - 1], steps[|steps| - 1];
      assert forall i | 0 <= i < |most| :: most[i] == steps[i];
      if step.HandlerEnds? && step.id == id {
        assert CleanStep(step);
      } else {
        EndedCleanly(connected, most, id);
      }
    }
  }

  ghost predicate SentIfConnected(s: System, connected: set<string>) {
    s.connected == connected && s.transit.Keys == s.sentTo.Keys && forall id | id in s.transit :: UnsentRight(s, id, connected)
  }

  /** The request is unsent just if its server is not connected. */
  predicate UnsentRight(s: System, id: int, connected: set<string>) {
    id in s.transit && id in s.sentTo && (s.transit[id].Unsent? <==> s.sentTo[id] !in connected)
  }

  lemma StepSendsIfConnected(s: System, step: Step, connected: set<string>)
    requires SentIfConnected(s, connected) && Enabled(s, step)
    ensures SentIfConnected(Next(s, step), connected)
  {
    var t := Next(s, step);
    assert t.transit.Keys == t.sentTo.Keys;
    forall id | id in t.transit ensures UnsentRight(t, id, connected) {
      StepKeepsUnsent(s, step, connected, id);
    }
  }

  lemma StepKeepsUnsent(s: System, step: Step, connected: set<string>, id: int)
    requires s.connected == connected && s.transit.Keys == s.sentTo.Keys && Enabled(s, step)
    requires id in s.transit ==> UnsentRight(s, id, connected)
    ensures id in Next(s, step).transit ==> UnsentRight(Next(s, step), id, connected)
  {
  }

  /** A request is sent off exactly when its server is connected. */
  lemma {:induction false} UnsentIfUnconnected(connected: set<string>, steps: seq<Step>)
    requires Run(connected, steps).Some?
    ensures SentIfConnected(Run(connected, steps).value, connected)
  {
    if steps != [] {
      UnsentIfUnconnected(connected, steps[..|steps| - 1]);
      StepSendsIfConnected(Run(connected, steps[..|steps| - 1]).value, steps[|steps| - 1], connected);
    }
  }

  /** Its future was registered all the same, and stays pending until the router stops. */
  lemma UnconnectedStaysPending(connected: set<string>, steps: seq<Step>, id: int)
    requires Run(connected, steps).Some? && Clean(steps)
    requires id in Run(connected, steps).value.sentTo && Run(connected, steps).value.sentTo[id] !in connected
    ensures var s := Run(connected, steps).value;
            id in s.futures && (s.futures[id].Waiting? || s.stopped) && !s.futures[id].Completed?
  {
    RunKeepsInv(connected, steps);
    UnsentIfUnconnected(connected, steps);
    var s := Run(connected, steps).value;
    assert FutureOk(s, id) && UnsentRight(s, id, connected);
  }

  /** Before stop has finished, whatever handlers return, the numbers issued split into the pending
      and the completed ones. */
  lemma IssuedSplit(connected: set<string>, steps: seq<Step>)
    requires Run(connected, steps).Some? && !Run(connected, steps).value.stopped
    ensures var s := Run(connected, steps).value;
            forall id ::
              && (1 <= id < s.nextId <==> id in s.pending || (id in s.futures && s.futures[id].Completed?))
              && !(id in s.pending && id in s.futures && s.futures[id].Completed?)
  {
    RunKeepsBook(connected, steps);
  }

  /** Once stop has finished, no future that was ever registered is left incomplete. */
  lemma StopLeavesNoneWaiting(connected: set<string>, steps: seq<Step>)
    requires Run(connected, steps).Some? && Run(connected, steps).value.stopped
    ensures var s := Run(connected, steps).value;
            forall id | 1 <= id < s.nextId :: id in s.futures && s.futures[id] != Waiting
  {
    RunKeepsBook(connected, steps);
  }

  /** Only pending futures change in a step. */
  lemma StepChangesPending(s: System, step: Step, id: int)
    requires Enabled(s, step) && id in s.futures && id !in s.pending && id != s.nextId
    ensures id in Next(s, step).futures && Next(s, step).futures[id] == s.futures[id]
  {
  }

  /** A completed future is never completed again: whatever follows, and whatever handlers return,
      it keeps its result. */
  lemma {:induction false} CompletedOnce(connected: set<string>, steps: seq<Step>, more: seq<Step>, id: int)
    requires Run(connected, steps + more).Some?
    ensures Run(connected, steps).Some?
    ensures var s, t := Run(connected, steps).value, Run(connected, steps + more).value;
            id in s.futures && s.futures[id] != Waiting ==> id in t.futures && t.futures[id] == s.futures[id]
    decreases |more|
  {
    var all := steps + more;
    if more == [] {
      assert all == steps;
    } else {
      var most := more[..|more| - 1];
      assert all[..|all| - 1] == steps + most;
      CompletedOnce(connected, steps, most, id);
      RunKeepsBook(connected, steps + most);
      var s := Run(connected, steps).value;
      if id in s.futures && s.futures[id] != Waiting {
        StepChangesPending(Run(connected, steps + most).value, all[|all| - 1], id);
      }
    }
  }

  /** From any reachable state before stop, whatever handlers return, a request that was sent can
      still be seen to its end, and its future is then completed. */
  lemma CanComplete(connected: set<string>, steps: seq<Step>, id: int, o: Outcome)
    requires Run(connected, steps).Some? && Clean(steps) && CleanStep(HandlerEnds(id, o))
    requires var s := Run(connected, steps).value;
             !s.stopping && id in s.pending && id in s.transit && s.transit[id].ToServer?
    ensures var run := Run(connected, steps + [ServerReceives(id), HandlerEnds(id, o), ClientReceives(id)]);
            && run.Some? && id in run.value.futures && run.value.futures[id].Completed?
            && id in run.value.outcomes && run.value.outcomes[id] == o
  {
    RunKeepsInv(connected, steps);
    var s := Run(connected, steps).value;
    assert TransitOk(s, id);
    var a, b, c := ServerReceives(id), HandlerEnds(id, o), ClientReceives(id);
    OneStep(connected, steps, a);
    OneStep(connected, steps + [a], b);
    OneStep(connected, steps + [a] + [b], c);
    ResponseEchoes(s.requests[id], s.sentTo[id], API_VERSION, o, id);
    OneByOne(steps, a, b, c);
  }

  lemma OneByOne(steps: seq<Step>, a: Step, b: Step, c: Step)
    ensures steps + [a, b, c] == steps + [a] + [b] + [c]
  {
  }

  lemma OneStep(connected: set<string>, steps: seq<Step>, step: Step)
    requires Run(connected, steps).Some? && Enabled(Run(connected, steps).value, step)
    ensures Run(connected, steps + [step]) == Some(Next(Run(connected, steps).value, step))
  {
    assert (steps + [step])[..|steps|] == steps;
  }

  /** Without the proviso on results it fails: from any state that can be reached, a result that
      carries the number of another pending request completes that request's future, and its own
      request, if it was pending, stays so with nothing on its way. */
  lemma StrayResultCompletes(connected: set<string>, steps: seq<Step>, id: int, other: int, result: Message)
    requires Run(connected, steps).Some?
    requires var s := Run(connected, steps).value;
             !s.stopping && other != id && other in s.pending && Enabled(s, HandlerEnds(id, Returned(result)))
    requires TsId(result) == Some(other)
    ensures var s := Run(connected, steps).value;
            var run := Run(connected, steps + [HandlerEnds(id, Returned(result)), ClientReceives(id)]);
            && run.Some?
            && other in run.value.futures && other !in run.value.pending
            && run.value.futures[other]
               == Completed(ResponseMessage(s.transit[id].request, s.transit[id].server, API_VERSION, Returned(result)))
            && (id in s.pending ==> id in run.value.pending && run.value.transit[id].Gone?)
  {
    var s := Run(connected, steps).value;
    var a, b := HandlerEnds(id, Returned(result)), ClientReceives(id);
    OneStep(connected, steps, a);
    OneStep(connected, steps + [a], b);
    assert TsId(ResponseMessage(s.transit[id].request, s.transit[id].server, API_VERSION, Returned(result))) == Some(other);
    assert steps + [a, b] == steps + [a] + [b];
  }

  /** A run after which the future of request 2 is completed, though nobody has answered it. */
  predicate Misrouted(steps: seq<Step>) {
    var run := Run({"ts"}, steps);
    run.Some? && 2 in run.value.futures && run.value.futures[2].Completed? && 2 !in run.value.outcomes
  }

  /** For example, the result for request 1 carries the number 2, and completes the future of
      request 2, which nobody has answered. */
  lemma StrayNumberMisroutes() returns (steps: seq<Step>)
    ensures Misrouted(steps)
  {
    var send, received := Send("ts", map[], "x"), ServerReceives(1);
    var stray := HandlerEnds(1, Returned(map["ts_id" := Number(2)]));
    var s := TwoRequestsOneReceived(send);
    OneStep({"ts"}, [send, send, received], stray);
    StrayNumber(s, stray);
    StrayCompletes(Next(s, stray), ClientReceives(1));
    OneStep({"ts"}, [send, send, received] + [stray], ClientReceives(1));
    steps := [send, send, received] + [stray] + [ClientReceives(1)];
  }

  lemma StrayCompletes(t: System, step: Step)
    requires step.ClientReceives? && Enabled(t, step) && TsId(t.transit[step.id].response) == Some(2)
    requires 2 in t.pending && !t.stopping
    ensures var u := Next(t, step); 2 in u.futures && u.futures[2].Completed? && u.outcomes == t.outcomes
  {
  }

  lemma StrayNumber(s: System, step: Step)
    requires step.HandlerEnds? && Enabled(s, step) && step.outcome == Returned(map["ts_id" := Number(2)])
    ensures Next(s, step).transit[step.id].ToClient? && TsId(Next(s, step).transit[step.id].response) == Some(2)
  {
    assert Next(s, step).transit[step.id].response["ts_id"] == Number(2);
    assert (2 as real).Floor == 2;
  }

  lemma TwoRequestsOneReceived(send: Step) returns (s: System)
    requires send == Send("ts", map[], "x")
    ensures Run({"ts"}, [send, send, ServerReceives(1)]) == Some(s)
    ensures s.pending == {1, 2} && s.futures.Keys == {1, 2} && s.outcomes == map[] && !s.stopping
    ensures 1 in s.transit && s.transit[1].Handling? && Acceptable(s.transit[1].request)
  {
    assert Run({"ts"}, []) == Some(Init({"ts"}));
    OneStep({"ts"}, [], send);
    assert [] + [send] == [send];
    OneStep({"ts"}, [send], send);
    assert [send] + [send] == [send, send];
    RequestsAreAcceptable(map[], 1, "x");
    OneStep({"ts"}, [send, send], ServerReceives(1));
    assert [send, send] + [ServerReceives(1)] == [send, send, ServerReceives(1)];
    s := Run({"ts"}, [send, send, ServerReceives(1)]).value;
  }
}

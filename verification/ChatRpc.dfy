/**
 The chat RPC end to end: any number of clients (SendRequest and handleResponse of the websocket
 service) and of servers (handleRequest of the chat service) over a broker that may lose, repeat,
 delay and reorder messages. Every client instance receives every reply and picks out its own by
 request ID. A call's registration, the broker's storing of its request, the return of the publish
 call, waiting and deferred cleanup are separate steps, so a reply can arrive before the publish
 call has returned. Each handler call is one step. Request IDs are unique and JSON encoding is
 faithful.
 */
module ChatRpc {
  import opened Wrappers

  /** The values JSON requests and replies carry; Time stands for a clock reading. */
  datatype Json =
    | Null
    | Str(s: string)
    | Time(t: int)
    | Obj(fields: map<string, Json>)
    | Arr(items: seq<Json>)

  datatype Request = Request(id: string, user: string, action: string, data: Json)

  datatype Response = Response(id: string, success: bool, data: Json, error: string)

  const HOUR := 3_600
  const HALF_HOUR := 1_800

  /** The two clock readings one request may take; only the history takes both. */
  datatype Clock = Clock(first: int, second: int)

  function History(t: Clock): Json {
    Obj(map["messages" := Arr([HistoryEntry("1", "Hello", t.first - HOUR),
                               HistoryEntry("2", "World", t.second - HALF_HOUR)])])
  }

  function Sent(message: Json, t: int): Json {
    Obj(map["status" := Str("sent"), "message" := message, "timestamp" := Time(t)])
  }

  /** processRequest, at clock readings t. */
  function Processed(request: Request, t: Clock): Response {
    if request.action == "send_message" then
      if request.data.Obj? && "message" in request.data.fields && request.data.fields["message"].Str?
      then Response(request.id, true, Sent(request.data.fields["message"], t.first), "")
      else Response(request.id, true, Null, "")
    else if request.action == "get_history" then
      Response(request.id, true, History(t), "")
    else Response(request.id, false, Null, "未知動作: " + request.action)
  }

  /** The same value with its clock readings blotted out. */
  function Untimed(j: Json): Json {
    match j
    case Time(_) => Time(0)
    case Obj(fields) => Obj(map k | k in fields :: Untimed(fields[k]))
    case Arr(items) => Arr(seq(|items|, i requires 0 <= i < |items| => Untimed(items[i])))
    case _ => j
  }

  function HistoryEntry(id: string, message: string, t: int): Json {
    Obj(map["id" := Str(id), "message" := Str(message), "timestamp" := Time(t)])
  }

  lemma {:induction false} EntryUntimed(id: string, message: string, t: int)
    ensures Untimed(HistoryEntry(id, message, t)) == HistoryEntry(id, message, 0)
  {
    var fields := HistoryEntry(id, message, t).fields;
    assert (map k | k in fields :: Untimed(fields[k])) == HistoryEntry(id, message, 0).fields;
  }

  predicate IsObject(j: Json, keys: set<string>) {
    j.Obj? && j.fields.Keys == keys
  }

  /** The request's data is an object with a string under "message". */
  predicate HasText(request: Request) {
    request.data.Obj? && "message" in request.data.fields && request.data.fields["message"].Str?
  }

  predicate IsEntry(j: Json, id: string, message: string, time: int) {
    && IsObject(j, {"id", "message", "timestamp"})
    && j.fields["id"] == Str(id) && j.fields["message"] == Str(message) && j.fields["timestamp"] == Time(time)
  }

  /** What a reply to a request has to say, made at clock readings t: the request's ID; for a message
      that it was sent, which, and when, or nothing if there was no text; for the history two entries
      of an hour and half an hour ago; for any other action an error that names it. */
  predicate AnswerAt(response: Response, request: Request, t: Clock) {
    && response.id == request.id
    && if request.action == "send_message" then
         response.success && response.error == "" &&
         if HasText(request) then
           && IsObject(response.data, {"status", "message", "timestamp"})
           && response.data.fields["status"] == Str("sent")
           && response.data.fields["message"] == request.data.fields["message"]
           && response.data.fields["timestamp"] == Time(t.first)
         else response.data == Null
       else if request.action == "get_history" then
         && response.success && response.error == ""
         && IsObject(response.data, {"messages"}) && response.data.fields["messages"].Arr?
         && var items := response.data.fields["messages"].items;
            && |items| == 2 && IsEntry(items[0], "1", "Hello", t.first - 60 * 60)
            && IsEntry(items[1], "2", "World", t.second - 30 * 60)
       else
         && !response.success && response.data == Null
         && response.error == "未知動作: " + request.action
  }

  /** A reply as it has to be for this very request, whenever it was made. */
  ghost predicate Answers(response: Response, request: Request) {
    exists t :: AnswerAt(response, request, t)
  }

  lemma {:induction false} ProcessedAnswers(request: Request, t: Clock)
    ensures AnswerAt(Processed(request, t), request, t) && Answers(Processed(request, t), request)
  {
    if request.action == "get_history" {
      assert History(t).fields.Keys == {"messages"};
      assert HistoryEntry("1", "Hello", t.first - HOUR).fields.Keys == {"id", "message", "timestamp"};
      assert HistoryEntry("2", "World", t.second - HALF_HOUR).fields.Keys == {"id", "message", "timestamp"};
    } else if request.action == "send_message" && HasText(request) {
      assert Processed(request, t).data.fields.Keys == {"status", "message", "timestamp"};
    }
    assert AnswerAt(Processed(request, t), request, t);
  }

  /** processRequest answers as it has to, succeeds exactly on the two known actions, reports an error
      exactly otherwise, and answers a repeated request the same up to timestamps. */
  lemma {:induction false} ProcessedMeans(request: Request, t: Clock, u: Clock)
    ensures var r := Processed(request, t);
            && AnswerAt(r, request, t)
            && (r.success <==> request.action == "send_message" || request.action == "get_history")
            && (r.error == "" <==> r.success)
            && Untimed(r.data) == Untimed(Processed(request, u).data)
  {
    ProcessedAnswers(request, t);
    if request.action == "get_history" {
      HistoryUntimed(t);
      HistoryUntimed(u);
    } else if request.action == "send_message" && Processed(request, t).data.Obj? {
      var a, b := Processed(request, t).data.fields, Processed(request, u).data.fields;
      assert (map k | k in a :: Untimed(a[k])) == (map k | k in b :: Untimed(b[k]));
    }
  }

  lemma {:induction false} HistoryUntimed(t: Clock)
    ensures Untimed(History(t)) ==
            Obj(map["messages" := Arr([HistoryEntry("1", "Hello", 0), HistoryEntry("2", "World", 0)])])
  {
    var fields := History(t).fields;
    EntryUntimed("1", "Hello", t.first - HOUR);
    EntryUntimed("2", "World", t.second - HALF_HOUR);
    var blotted := Arr([HistoryEntry("1", "Hello", 0), HistoryEntry("2", "World", 0)]);
    assert Untimed(fields["messages"]) == blotted by {
      assert Untimed(fields["messages"]).items == blotted.items;
    }
    assert (map k | k in fields :: Untimed(fields[k])) == map["messages" := blotted];
  }

  // ---------------------------------------------------------------------------------------------
  // The client's table of waiting requests
  // ---------------------------------------------------------------------------------------------

  /** A one-slot channel; sending on or closing a closed one panics. */
  datatype Channel = Channel(slot: Option<Response>, closed: bool)

  datatype Table = Table(channels: map<string, Channel>, responses: set<string>, panicked: bool, discarded: bool)

  /** handleResponse: fill the waiting channel, or discard if it is full, and remove the entry. */
  function Delivered(t: Table, response: Response): Table {
    if response.id !in t.responses || response.id !in t.channels then t
    else
      var ch := t.channels[response.id];
      var u := t.(responses := t.responses - {response.id});
      if ch.closed then u.(panicked := true)
      else if ch.slot.Some? then u.(discarded := true)
      else u.(channels := t.channels[response.id := Channel(Some(response), false)])
  }

  function Registered(t: Table, id: string): Table {
    t.(channels := t.channels[id := Channel(None, false)], responses := t.responses + {id})
  }

  /** The deferred cleanup of SendRequest. */
  function CleanedUp(t: Table, id: string): Table
    requires id in t.channels
  {
    var u := t.(responses := t.responses - {id});
    if t.channels[id].closed then u.(panicked := true)
    else u.(channels := t.channels[id := t.channels[id].(closed := true)])
  }

  function Taken(t: Table, id: string): Table
    requires id in t.channels
  {
    t.(channels := t.channels[id := t.channels[id].(slot := None)])
  }

  /** The client object: channels by ID, and the map of those still waited on. */
  class ChatClient {
    var channels: map<string, Channel>
    var responses: set<string>
    var panicked: bool
    var discarded: bool

    ghost function View(): Table
      reads this
    {
      Table(channels, responses, panicked, discarded)
    }

    constructor ()
      ensures View() == Table(map[], {}, false, false)
    {
      channels, responses, panicked, discarded := map[], {}, false, false;
    }

    method HandleResponse(response: Response)
      modifies this
      ensures View() == Delivered(old(View()), response)
      ensures var id := response.id;
              if id !in old(responses) || id !in old(channels) then View() == old(View())
              else
                && responses == old(responses) - {id}
                && panicked == (old(panicked) || old(channels)[id].closed)
                && discarded == (old(discarded) || (!old(channels)[id].closed && old(channels)[id].slot.Some?))
                && channels == if old(channels)[id] == Channel(None, false)
                               then old(channels)[id := Channel(Some(response), false)] else old(channels)
    {
      if response.id in responses && response.id in channels {
        var ch := channels[response.id];
        if ch.closed {
          panicked := true;
        } else if ch.slot.None? {
          channels := channels[response.id := Channel(Some(response), false)];
        } else {
          discarded := true;
        }
        responses := responses - {response.id};
      }
    }

    method Register(id: string)
      modifies this
      ensures View() == Registered(old(View()), id)
      ensures channels == old(channels)[id := Channel(None, false)] && responses == old(responses) + {id}
    {
      channels := channels[id := Channel(None, false)];
      responses := responses + {id};
    }

    method CleanUp(id: string)
      requires id in channels
      modifies this
      ensures View() == CleanedUp(old(View()), id)
      ensures responses == old(responses) - {id} && panicked == (old(panicked) || old(channels)[id].closed)
      ensures channels == old(channels)[id := Channel(old(channels)[id].slot, true)]
    {
      responses := responses - {id};
      if channels[id].closed {
        panicked := true;
      } else {
        channels := channels[id := channels[id].(closed := true)];
      }
    }
  }

  // ---------------------------------------------------------------------------------------------
  // The protocol
  // ---------------------------------------------------------------------------------------------

  datatype Outcome = Reply(response: Response) | PublishFailed | TimedOut

  datatype Pc = Publishing | Waiting | Returning(outcome: Outcome) | Done(outcome: Outcome)

  datatype Call = Call(client: nat, request: Request, pc: Pc)

  datatype System = System(
    calls: map<string, Call>,       // by request ID
    tables: map<nat, Table>,        // one per client instance
    requests: set<Request>,         // requests the broker holds
    replies: set<Response>,         // replies the broker holds
    returned: map<string, nat>      // how many results each call has returned
  )

  datatype Step =
    | Connect(client: nat)
    | Begin(client: nat, request: Request)  // make the channel and register it
    | Store(id: string)                     // the request reaches the broker, even after a failure
    | PublishReturn(id: string, ok: bool)   // no error only if the broker has the request
    | Serve(request: Request, t: Clock, stored: bool)
    | Deliver(client: nat, response: Response)
    | Receive(id: string)
    | Timeout(id: string)
    | CleanUp(id: string)                   // the deferred function, and the return

  function Start(): System {
    System(map[], map[], {}, {}, map[])
  }

  predicate CallAt(s: System, id: string, pc: Pc) {
    id in s.calls && s.calls[id].pc == pc
  }

  predicate HasChannel(s: System, id: string) {
    && id in s.calls && s.calls[id].client in s.tables
    && id in s.tables[s.calls[id].client].channels
  }

  function ChannelOf(s: System, id: string): Channel
    requires HasChannel(s, id)
  {
    s.tables[s.calls[id].client].channels[id]
  }

  /** What a receive from a closed channel yields once it is empty. */
  const ZERO := Response("", false, Null, "")

  predicate Enabled(s: System, step: Step) {
    match step
    case Connect(client) => client !in s.tables
    case Begin(client, request) => client in s.tables && request.id !in s.calls
    case Store(id) => id in s.calls
    case PublishReturn(id, ok) =>
      CallAt(s, id, Publishing) && (ok ==> s.calls[id].request in s.requests)
    case Serve(request, _, _) => request in s.requests
    case Deliver(client, response) => client in s.tables && response in s.replies
    case Receive(id) =>
      CallAt(s, id, Waiting) && HasChannel(s, id) && (ChannelOf(s, id).slot.Some? || ChannelOf(s, id).closed)
    case Timeout(id) => CallAt(s, id, Waiting)
    case CleanUp(id) => id in s.calls && s.calls[id].pc.Returning? && HasChannel(s, id)
  }

  function Moved(s: System, id: string, pc: Pc): map<string, Call>
    requires id in s.calls
  {
    s.calls[id := s.calls[id].(pc := pc)]
  }

  function Next(s: System, step: Step): System {
    if !Enabled(s, step) then s
    else
      match step
      case Connect(client) => s.(tables := s.tables[client := Table(map[], {}, false, false)])
      case Begin(client, request) =>
        s.(calls := s.calls[request.id := Call(client, request, Publishing)],
           tables := s.tables[client := Registered(s.tables[client], request.id)],
           returned := s.returned[request.id := 0])
      case Store(id) => s.(requests := s.requests + {s.calls[id].request})
      case PublishReturn(id, ok) =>
        s.(calls := Moved(s, id, if ok then Waiting else Returning(PublishFailed)))
      case Serve(request, t, stored) =>
        if stored then s.(replies := s.replies + {Processed(request, t)}) else s
      case Deliver(client, response) =>
        s.(tables := s.tables[client := Delivered(s.tables[client], response)])
      case Receive(id) =>
        var client := s.calls[id].client;
        var slot := ChannelOf(s, id).slot;
        s.(calls := Moved(s, id, Returning(Reply(if slot.Some? then slot.value else ZERO))),
           tables := s.tables[client := Taken(s.tables[client], id)])
      case Timeout(id) => s.(calls := Moved(s, id, Returning(TimedOut)))
      case CleanUp(id) =>
        var client := s.calls[id].client;
        s.(calls := Moved(s, id, Done(s.calls[id].pc.outcome)),
           tables := s.tables[client := CleanedUp(s.tables[client], id)],
           returned := s.returned[id := if id in s.returned then s.returned[id] + 1 else 1])
  }

  function Exec(s: System, steps: seq<Step>): System
    decreases |steps|
  {
    if steps == [] then s else Exec(Next(s, steps[0]), steps[1..])
  }

  // ---------------------------------------------------------------------------------------------
  // The invariant
  // ---------------------------------------------------------------------------------------------

  predicate Finished(pc: Pc) {
    pc.Returning? || pc.Done?
  }

  ghost predicate ReplyFits(s: System, response: Response) {
    response.id in s.calls && Answers(response, s.calls[response.id].request)
  }

  /** What one call and its channel satisfy. */
  ghost predicate CallInv(s: System, id: string) {
    && HasChannel(s, id)
    && var call, ch, table := s.calls[id], ChannelOf(s, id), s.tables[s.calls[id].client];
       && call.request.id == id
       && (call.pc.Done? <==> ch.closed)
       && (id in table.responses ==> ch.slot == None && !call.pc.Done?)
       && (!Finished(call.pc) ==> id in table.responses || ch.slot.Some?)
       && (ch.slot.Some? ==> ch.slot.value.id == id && ReplyFits(s, ch.slot.value))
       && (Finished(call.pc) && call.pc.outcome.Reply? ==>
             call.pc.outcome.response.id == id && ReplyFits(s, call.pc.outcome.response))
       && (Finished(call.pc) && call.pc.outcome.Reply? ==> ch.slot == None && id !in table.responses)
       && id in s.returned && s.returned[id] == if call.pc.Done? then 1 else 0
  }

  /** A client's table holds only its own calls. */
  ghost predicate TableInv(s: System, client: nat)
    requires client in s.tables
  {
    && !s.tables[client].panicked && !s.tables[client].discarded
    && (forall id :: id in s.tables[client].channels ==> id in s.calls && s.calls[id].client == client)
    && s.tables[client].responses <= s.tables[client].channels.Keys
  }

  ghost predicate WireInv(s: System) {
    && (forall q :: q in s.requests ==> q.id in s.calls && s.calls[q.id].request == q)
    && (forall r :: r in s.replies ==> ReplyFits(s, r))
  }

  ghost predicate Inv(s: System) {
    && (forall id :: id in s.calls ==> CallInv(s, id))
    && (forall client :: client in s.tables ==> TableInv(s, client))
    && WireInv(s)
  }

  /** Calls are never removed and keep their client and request. */
  ghost predicate Extends(s: System, t: System) {
    forall id :: id in s.calls ==>
      id in t.calls && t.calls[id].request == s.calls[id].request && t.calls[id].client == s.calls[id].client
  }

  lemma NextExtends(s: System, step: Step)
    ensures Extends(s, Next(s, step))
  {
  }

  lemma ReplyStillFits(s: System, t: System, response: Response)
    requires Extends(s, t) && ReplyFits(s, response)
    ensures ReplyFits(t, response)
  {
  }

  lemma {:induction false} NextReplies(s: System, step: Step, r: Response)
    requires Inv(s) && r in Next(s, step).replies
    ensures ReplyFits(Next(s, step), r)
  {
    NextExtends(s, step);
    if r !in s.replies {
      var request := step.request;
      assert r == Processed(request, step.t);
      ProcessedAnswers(request, step.t);
    } else {
      ReplyStillFits(s, Next(s, step), r);
    }
  }

  lemma {:induction false} NextRequests(s: System, step: Step, q: Request)
    requires Inv(s) && q in Next(s, step).requests
    ensures var t := Next(s, step);
            q.id in t.calls && t.calls[q.id].request == q
  {
    NextExtends(s, step);
    if q !in s.requests {
      assert CallInv(s, step.id);
    }
  }

  lemma {:induction false} NextWire(s: System, step: Step)
    requires Inv(s)
    ensures WireInv(Next(s, step))
  {
    forall r | r in Next(s, step).replies ensures ReplyFits(Next(s, step), r) {
      NextReplies(s, step, r);
    }
    forall q | q in Next(s, step).requests
      ensures var t := Next(s, step);
              q.id in t.calls && t.calls[q.id].request == q
    {
      NextRequests(s, step, q);
    }
  }

  /** A client's table after a step that touches it. */
  function TableAfter(s: System, step: Step, client: nat): Table
    requires client in s.tables
  {
    if !Enabled(s, step) then s.tables[client]
    else
      match step
      case Begin(c, request) => if c == client then Registered(s.tables[c], request.id) else s.tables[client]
      case Deliver(c, response) => if c == client then Delivered(s.tables[c], response) else s.tables[client]
      case Receive(id) => if s.calls[id].client == client then Taken(s.tables[client], id) else s.tables[client]
      case CleanUp(id) => if s.calls[id].client == client then CleanedUp(s.tables[client], id) else s.tables[client]
      case _ => s.tables[client]
  }

  lemma NextTable(s: System, step: Step, client: nat)
    requires client in s.tables
    ensures client in Next(s, step).tables && Next(s, step).tables[client] == TableAfter(s, step, client)
  {
  }

  /** The call whose entry a delivery or a cleanup finds is waiting on an empty open channel. */
  lemma {:induction false} TouchedTable(s: System, step: Step, client: nat)
    requires Inv(s) && client in s.tables && Enabled(s, step)
    ensures var u := TableAfter(s, step, client);
            && !u.panicked && !u.discarded && u.responses <= u.channels.Keys
            && u.channels.Keys <= s.tables[client].channels.Keys
                                  + if step.Begin? && step.client == client then {step.request.id} else {}
  {
    assert TableInv(s, client);
    if step.CleanUp? {
      assert CallInv(s, step.id);
    } else if step.Deliver? && step.response.id in s.tables[client].responses {
      assert CallInv(s, step.response.id);
    }
  }

  lemma {:induction false} NextTables(s: System, step: Step, client: nat)
    requires Inv(s) && client in Next(s, step).tables
    ensures TableInv(Next(s, step), client)
  {
    NextExtends(s, step);
    if client in s.tables {
      NextTable(s, step, client);
      if Enabled(s, step) {
        TouchedTable(s, step, client);
        ChannelsOwned(s, step, client);
      }
    }
  }

  lemma {:induction false} ChannelsOwned(s: System, step: Step, client: nat)
    requires Inv(s) && client in s.tables && Enabled(s, step)
    requires TableAfter(s, step, client).channels.Keys <=
             s.tables[client].channels.Keys + if step.Begin? && step.client == client then {step.request.id} else {}
    ensures forall id :: id in TableAfter(s, step, client).channels ==>
              id in Next(s, step).calls && Next(s, step).calls[id].client == client
  {
    NextExtends(s, step);
    assert TableInv(s, client);
  }

  /** Whether a step is about a given call. */
  predicate About(step: Step, id: string) {
    match step
    case Begin(_, request) => request.id == id
    case PublishReturn(i, _) => i == id
    case Deliver(_, response) => response.id == id
    case Receive(i) => i == id
    case Timeout(i) => i == id
    case CleanUp(i) => i == id
    case _ => false
  }

  /** The call a reply is delivered for, at its own client or another. */
  lemma {:induction false} DeliveredCall(s: System, step: Step, id: string)
    requires Inv(s) && Enabled(s, step) && step.Deliver? && step.response.id == id && id in s.calls
    ensures CallInv(Next(s, step), id)
  {
    assert CallInv(s, id) && ReplyFits(s, step.response) && TableInv(s, step.client);
  }

  /** A call that has just begun. */
  lemma {:induction false} BegunCall(s: System, step: Step)
    requires Enabled(s, step) && step.Begin?
    ensures CallInv(Next(s, step), step.request.id)
  {
  }

  /** The call another step is about. */
  lemma {:induction false} NextOwnCall(s: System, step: Step, id: string)
    requires Inv(s) && Enabled(s, step) && id in s.calls && About(step, id) && !step.Deliver? && !step.Begin?
    ensures CallInv(Next(s, step), id)
  {
    NextExtends(s, step);
    assert CallInv(s, id);
  }

  /** A call keeps its invariant while what the invariant reads stays the same. */
  lemma {:induction false} FrameCall(s: System, t: System, id: string)
    requires CallInv(s, id) && Extends(s, t) && id in t.calls && t.calls[id] == s.calls[id] && HasChannel(t, id)
    requires ChannelOf(t, id) == ChannelOf(s, id)
    requires var c := s.calls[id].client; id in t.tables[c].responses <==> id in s.tables[c].responses
    requires id in t.returned && t.returned[id] == s.returned[id]
    ensures CallInv(t, id)
  {
    if ChannelOf(s, id).slot.Some? {
      ReplyStillFits(s, t, ChannelOf(s, id).slot.value);
    }
    if Finished(s.calls[id].pc) && s.calls[id].pc.outcome.Reply? {
      ReplyStillFits(s, t, s.calls[id].pc.outcome.response);
    }
  }

  /** A step leaves other calls' entries in the tables alone. */
  lemma {:induction false} TableElsewhere(s: System, step: Step, client: nat, id: string)
    requires client in s.tables && id in s.tables[client].channels && !(Enabled(s, step) && About(step, id))
    ensures var t, u := s.tables[client], TableAfter(s, step, client);
            id in u.channels && u.channels[id] == t.channels[id] && (id in u.responses <==> id in t.responses)
  {
  }

  lemma {:induction false} CallElsewhere(s: System, step: Step, id: string)
    requires id in s.calls && id in s.returned && !(Enabled(s, step) && About(step, id))
    ensures var t := Next(s, step);
            id in t.calls && t.calls[id] == s.calls[id] && id in t.returned && t.returned[id] == s.returned[id]
  {
  }

  lemma {:induction false} NextOtherCall(s: System, step: Step, id: string)
    requires Inv(s) && id in s.calls && !(Enabled(s, step) && About(step, id))
    ensures CallInv(Next(s, step), id)
  {
    assert CallInv(s, id);
    var client := s.calls[id].client;
    NextExtends(s, step);
    NextTable(s, step, client);
    TableElsewhere(s, step, client, id);
    CallElsewhere(s, step, id);
    FrameCall(s, Next(s, step), id);
  }

  lemma {:induction false} NextInv(s: System, step: Step)
    requires Inv(s)
    ensures Inv(Next(s, step))
  {
    if !Enabled(s, step) {
      return;
    }
    var t := Next(s, step);
    NextWire(s, step);
    forall client | client in t.tables ensures TableInv(t, client) {
      NextTables(s, step, client);
    }
    forall id | id in t.calls ensures CallInv(t, id) {
      if step.Deliver? && step.response.id == id {
        DeliveredCall(s, step, id);
      } else if step.Begin? && step.request.id == id {
        BegunCall(s, step);
      } else if About(step, id) {
        NextOwnCall(s, step, id);
      } else {
        NextOtherCall(s, step, id);
      }
    }
  }

  lemma {:induction false} RunInv(s: System, steps: seq<Step>)
    requires Inv(s)
    ensures Inv(Exec(s, steps)) && Extends(s, Exec(s, steps))
    decreases |steps|
  {
    if steps != [] {
      NextInv(s, steps[0]);
      NextExtends(s, steps[0]);
      RunInv(Next(s, steps[0]), steps[1..]);
    }
  }

  // ---------------------------------------------------------------------------------------------
  // What runs promise
  // ---------------------------------------------------------------------------------------------

  /** Correlation end to end: whatever the broker does, a call that returns a response returns one that
      answers that very request, having taken it out of its channel, and no call returns twice. */
  lemma {:induction false} EndToEnd(steps: seq<Step>, id: string)
    requires id in Exec(Start(), steps).calls
    ensures var s := Exec(Start(), steps);
            && id in s.returned && s.returned[id] <= 1
            && (s.calls[id].pc.Done? && s.calls[id].pc.outcome.Reply? ==>
                  && Answers(s.calls[id].pc.outcome.response, s.calls[id].request)
                  && HasChannel(s, id) && ChannelOf(s, id) == Channel(None, true))
  {
    RunInv(Start(), steps);
    assert CallInv(Exec(Start(), steps), id);
  }

  /** In no run does a client send on or close a closed channel, or find a waiting channel full. */
  lemma {:induction false} ChannelsAreSafe(steps: seq<Step>, client: nat)
    requires client in Exec(Start(), steps).tables
    ensures !Exec(Start(), steps).tables[client].panicked && !Exec(Start(), steps).tables[client].discarded
  {
    RunInv(Start(), steps);
    assert TableInv(Exec(Start(), steps), client);
  }

  /** The three ways a call stops caring for replies: it takes one, times out, or publishing fails. */
  predicate Ends(step: Step, id: string) {
    step == Receive(id) || step == Timeout(id) || step == PublishReturn(id, false)
  }

  /** The first of these that happens along a run. */
  function FirstEnd(s: System, steps: seq<Step>, id: string): Option<Step>
    decreases |steps|
  {
    if steps == [] then None
    else if Ends(steps[0], id) && Enabled(s, steps[0]) then Some(steps[0])
    else FirstEnd(Next(s, steps[0]), steps[1..], id)
  }

  /** The outcome an ending brings to a call that has reply r in its channel. */
  function OutcomeOf(end: Step, r: Response): Outcome {
    if end.Receive? then Reply(r) else if end.Timeout? then TimedOut else PublishFailed
  }

  predicate Unfinished(s: System, id: string) {
    id in s.calls && !Finished(s.calls[id].pc)
  }

  predicate Holds(s: System, id: string, r: Response) {
    Unfinished(s, id) && HasChannel(s, id) && ChannelOf(s, id).slot == Some(r)
  }

  predicate EndedWith(s: System, id: string, outcome: Outcome) {
    id in s.calls && Finished(s.calls[id].pc) && s.calls[id].pc.outcome == outcome
  }

  lemma {:induction false} OutcomeLasts(s: System, steps: seq<Step>, id: string, outcome: Outcome)
    requires EndedWith(s, id, outcome)
    ensures EndedWith(Exec(s, steps), id, outcome)
    decreases |steps|
  {
    if steps != [] {
      OutcomeLasts(Next(s, steps[0]), steps[1..], id, outcome);
    }
  }

  /** Until a call ends, the reply in its channel stays. */
  lemma {:induction false} ReplyStays(s: System, step: Step, id: string, r: Response)
    requires Inv(s) && Holds(s, id, r) && !(Enabled(s, step) && Ends(step, id))
    ensures Holds(Next(s, step), id, r)
  {
    assert CallInv(s, id);
    var client := s.calls[id].client;
    NextTable(s, step, client);
    if !(Enabled(s, step) && About(step, id)) {
      TableElsewhere(s, step, client, id);
      CallElsewhere(s, step, id);
    } else if step.Deliver? {
      assert id !in s.tables[client].responses;
      assert TableAfter(s, step, client) == s.tables[client];
    }
  }

  /** However a run goes on, a reply once in the channel of an unfinished call stays there until the
      call ends, and the way it ends decides whether the reply is the result. */
  lemma {:induction false} ReplyWaits(s: System, steps: seq<Step>, id: string, r: Response)
    requires Inv(s) && Holds(s, id, r)
    ensures var t, end := Exec(s, steps), FirstEnd(s, steps, id);
            match end {
              case None => Holds(t, id, r)
              case Some(step) => EndedWith(t, id, OutcomeOf(step, r))
            }
    decreases |steps|
  {
    if steps != [] {
      var t := Next(s, steps[0]);
      if Ends(steps[0], id) && Enabled(s, steps[0]) {
        assert EndedWith(t, id, OutcomeOf(steps[0], r));
        OutcomeLasts(t, steps[1..], id, OutcomeOf(steps[0], r));
      } else {
        NextInv(s, steps[0]);
        ReplyStays(s, steps[0], id, r);
        ReplyWaits(t, steps[1..], id, r);
      }
    }
  }

  /** A reply delivered at its client while the call is unfinished, even while it is still publishing,
      leaves a reply in the call's channel: this one if there was none before. */
  lemma {:induction false} DeliveryFills(s: System, response: Response)
    requires Inv(s) && response in s.replies && Unfinished(s, response.id)
    ensures var id := response.id;
            var t := Next(s, Deliver(s.calls[id].client, response));
            && HasChannel(s, id) && HasChannel(t, id) && ChannelOf(t, id).slot.Some?
            && var r := ChannelOf(t, id).slot.value;
               && Holds(t, id, r) && Answers(r, s.calls[id].request)
               && (ChannelOf(s, id).slot == None ==> r == response)
  {
    assert CallInv(s, response.id);
    var step := Deliver(s.calls[response.id].client, response);
    NextInv(s, step);
    assert CallInv(Next(s, step), response.id);
  }

  /** A reply delivered while its call is unfinished is not missed: in every continuation it, or one
      delivered before it, waits in the channel or is the result, unless the call first times out or
      its publish call reports an error; then that is the result. */
  lemma {:induction false} ReplyNotMissed(before: seq<Step>, response: Response, after: seq<Step>)
    requires response in Exec(Start(), before).replies && Unfinished(Exec(Start(), before), response.id)
    ensures var s, id := Exec(Start(), before), response.id;
            var t := Next(s, Deliver(s.calls[id].client, response));
            && HasChannel(t, id) && ChannelOf(t, id).slot.Some?
            && var r := ChannelOf(t, id).slot.value;
               && Answers(r, s.calls[id].request)
               && (HasChannel(s, id) && ChannelOf(s, id).slot == None ==> r == response)
               && match FirstEnd(t, after, id) {
                    case None => Holds(Exec(t, after), id, r)
                    case Some(step) => EndedWith(Exec(t, after), id, OutcomeOf(step, r))
                  }
  {
    RunInv(Start(), before);
    var s := Exec(Start(), before);
    DeliveryFills(s, response);
    var step := Deliver(s.calls[response.id].client, response);
    NextInv(s, step);
    var t := Next(s, step);
    ReplyWaits(t, after, response.id, ChannelOf(t, response.id).slot.value);
  }

  /** A timely reply can be missed: the request is stored, served and answered while the publish call
      is still running, and then that call reports an error. */
  lemma {:induction false} TimelyReplyMissed(client: nat, request: Request, time: Clock)
    ensures exists steps :: var s, id := Exec(Start(), steps), request.id;
              && EndedWith(s, id, PublishFailed) && HasChannel(s, id)
              && ChannelOf(s, id).slot == Some(Processed(request, time))
  {
    var id, reply := request.id, Processed(request, time);
    var blank := Table(map[], {}, false, false);
    var table := Registered(blank, id);
    var call := Call(client, request, Publishing);
    var s1 := System(map[], map[client := blank], {}, {}, map[]);
    var s2 := System(map[id := call], map[client := table], {}, {}, map[id := 0]);
    var s4 := s2.(requests := {request}, replies := {reply});
    var s5 := s4.(tables := map[client := Delivered(table, reply)]);
    var s6 := s5.(calls := map[id := call.(pc := Returning(PublishFailed))]);
    var deliver, fail := Deliver(client, reply), PublishReturn(id, false);
    assert Next(Start(), Connect(client)) == s1;
    assert Next(s1, Begin(client, request)) == s2;
    assert Next(Next(s2, Store(id)), Serve(request, time, true)) == s4;
    assert Next(s4, deliver) == s5;
    assert Next(s5, fail) == s6;
    ExecUnfold(s5, fail, []);
    ExecUnfold(s4, deliver, [fail]);
    ExecUnfold(Next(s2, Store(id)), Serve(request, time, true), [deliver, fail]);
    ExecUnfold(s2, Store(id), [Serve(request, time, true), deliver, fail]);
    ExecUnfold(s1, Begin(client, request), [Store(id), Serve(request, time, true), deliver, fail]);
    var rest := [Begin(client, request), Store(id), Serve(request, time, true), deliver, fail];
    ExecUnfold(Start(), Connect(client), rest);
    assert EndedWith(s6, id, PublishFailed) && HasChannel(s6, id) && ChannelOf(s6, id).slot == Some(reply);
    assert Exec(Start(), [Connect(client)] + rest) == s6;
  }

  lemma ExecUnfold(s: System, step: Step, rest: seq<Step>)
    ensures Exec(s, [step] + rest) == Exec(Next(s, step), rest)
  {
    assert ([step] + rest)[1..] == rest;
  }
}

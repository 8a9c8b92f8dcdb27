/**
 Request/response correlation, at the granularity of single operations on the shared map, a
 context's status and a context's channel. Callers of Request, response handlers, the cleaner and
 Close are separate actors; replies may be lost, repeated, delayed and reordered.
 */
module RequestProtocol {
  import opened Wrappers

  datatype Status = Pending | Processing | Success | Timeout | Failed

  const CORRELATION_ID := "CORRELATION_ID"
  const REPLY_TO := "REPLY_TO"
  const CLIENT_ID := "CLIENT_ID"
  const ERROR := "ERROR"
  const GRACE := 5_000   // milliseconds

  /** A message on the reply topic; `origin` is the ID of the call whose request it answers. */
  datatype Reply = Reply(origin: string, properties: map<string, string>, body: string)

  datatype Response = Response(body: string, properties: map<string, string>, success: bool, error: string)

  function ResponseOf(r: Reply): Response {
    if ERROR in r.properties
    then Response(r.body, r.properties, false, r.properties[ERROR])
    else Response(r.body, r.properties, true, "")
  }

  /** A missing property reads as the empty string. */
  function CorrelationOf(properties: map<string, string>): string {
    if CORRELATION_ID in properties then properties[CORRELATION_ID] else ""
  }

  /** The reserved properties, over which the caller's own are then written. */
  function RequestProperties(id: string, replyTopic: string, clientId: string,
                             custom: map<string, string>): map<string, string> {
    map[CORRELATION_ID := id, REPLY_TO := replyTopic, CLIENT_ID := clientId] + custom
  }

  datatype ClosedBy = Nobody | ByCaller | ByCleaner | ByClose

  /** A RequestContext; its one-slot channel is open while closedBy is Nobody. */
  datatype Context = Context(status: Status, slot: Option<Reply>, closedBy: ClosedBy, requestTime: int, timeout: int)

  /** What the cleaner selects: timed out, or pending well beyond the timeout. */
  predicate Expired(c: Context, now: int) {
    c.status == Timeout || (c.status == Pending && now - c.requestTime > c.timeout + GRACE)
  }

  datatype Result = Got(reply: Reply) | RequestTimeout | ContextError | SendError

  function StatusFor(result: Result): Status {
    match result
    case Got(_) => Success
    case RequestTimeout => Timeout
    case ContextError => Timeout
    case SendError => Failed
  }

  /** Where a call of Request is; from Deleting on it is in its deferred function. */
  datatype Pc =
    | Stored | Sending | Awaiting
    | Finishing(result: Result) | Deleting(result: Result) | Marking(result: Result)
    | Probing(result: Result) | Shutting(result: Result) | Returned(result: Result)
  {
    function Outcome(): Option<Result> {
      match this
      case Stored => None
      case Sending => None
      case Awaiting => None
      case Finishing(r) => Some(r)
      case Deleting(r) => Some(r)
      case Marking(r) => Some(r)
      case Probing(r) => Some(r)
      case Shutting(r) => Some(r)
      case Returned(r) => Some(r)
    }

    predicate BeforeDelete() {
      Stored? || Sending? || Awaiting? || Finishing? || Deleting?
    }

    predicate InDeferred() {
      Marking? || Probing? || Shutting?
    }
  }

  datatype Call = Call(properties: map<string, string>, pc: Pc)

  datatype HandlerPc = Loaded(id: string, reply: Reply) | Passed(id: string, reply: Reply)

  /** Where the cleaner or Close is within the treatment of one entry. */
  datatype Phase = Mark | Probe | Shut | Delete

  datatype Sweeper = Free | At(id: string, phase: Phase)

  /** A panicking client stops; this is what made it panic. */
  datatype Panic = NoPanic | SentOnClosed | ClosedTwice

  datatype System = System(
    calls: map<string, Call>,          // every call of Request so far, by correlation ID
    contexts: map<string, Context>,    // their contexts, which outlive the map entries
    registered: set<string>,           // the keys of requestMap
    handlers: map<nat, HandlerPc>,     // responses being handled
    picked: set<string>,               // keys the cleaner has selected and not yet taken
    cleaner: Sweeper,
    closing: bool,                     // Close has stopped the cleaner
    closer: Sweeper,
    wire: set<Reply>,                  // replies that may still be delivered, any number of times
    panic: Panic
  )

  datatype Step =
    | Begin(id: string, replyTopic: string, clientId: string, custom: map<string, string>, time: int, timeout: int)
    | SetProcessing(id: string)
    | SendDone(id: string, ok: bool)
    | Take(id: string)              // the select's receive case
    | ContextDone(id: string)       // the select's context case
    | SetFinal(id: string)
    | DeleteEntry(id: string)
    | SetFailed(id: string)
    | ProbeOwn(id: string)
    | CloseOwn(id: string)
    | Post(reply: Reply)            // some responder publishes a reply
    | Load(h: nat, reply: Reply)
    | Check(h: nat)
    | Offer(h: nat)
    | Pick(id: string, now: int)
    | Remove(id: string)            // LoadAndDelete
    | Sweep                         // the cleaner's next operation on the entry it removed
    | CloseBegin
    | Visit(id: string)
    | SweepClosing                  // Close's next operation on the entry it visits

  function Start(): System {
    System(map[], map[], {}, map[], {}, Free, false, Free, {}, NoPanic)
  }

  predicate CallAt(s: System, id: string, pc: Pc) {
    id in s.calls && s.calls[id].pc == pc
  }

  predicate Enabled(s: System, step: Step) {
    && s.panic == NoPanic
    && match step
       case Begin(id, _, _, _, _, _) => id != "" && id !in s.calls && id !in s.contexts
       case SetProcessing(id) => CallAt(s, id, Stored) && id in s.contexts
       case SendDone(id, _) => CallAt(s, id, Sending)
       case Take(id) =>
         CallAt(s, id, Awaiting) && id in s.contexts &&
         (s.contexts[id].slot.Some? || s.contexts[id].closedBy != Nobody)
       case ContextDone(id) => CallAt(s, id, Awaiting)
       case SetFinal(id) => id in s.calls && s.calls[id].pc.Finishing? && id in s.contexts
       case DeleteEntry(id) => id in s.calls && s.calls[id].pc.Deleting?
       case SetFailed(id) => id in s.calls && s.calls[id].pc.Marking? && id in s.contexts
       case ProbeOwn(id) => id in s.calls && s.calls[id].pc.Probing? && id in s.contexts
       case CloseOwn(id) => id in s.calls && s.calls[id].pc.Shutting? && id in s.contexts
       case Post(_) => true
       case Load(h, reply) => h !in s.handlers && reply in s.wire
       case Check(h) => h in s.handlers && s.handlers[h].Loaded? && s.handlers[h].id in s.contexts
       case Offer(h) => h in s.handlers && s.handlers[h].Passed? && s.handlers[h].id in s.contexts
       case Pick(id, now) =>
         !s.closing && s.cleaner == Free && id in s.registered && id in s.contexts && Expired(s.contexts[id], now)
       case Remove(id) => s.cleaner == Free && id in s.picked
       case Sweep => s.cleaner.At? && s.cleaner.id in s.contexts
       case CloseBegin => !s.closing && s.cleaner == Free && s.picked == {}
       case Visit(id) => s.closing && s.closer == Free && id in s.registered
       case SweepClosing => s.closer.At? && s.closer.id in s.contexts
  }

  // Operations on one context.

  /** The receive case of `select { case <-ch: default: close(ch) }`, or no case taken. */
  function Drained(c: Context): Context {
    c.(slot := None)
  }

  predicate ReadyToReceive(c: Context) {
    c.slot.Some? || c.closedBy != Nobody
  }

  function WithContext(s: System, id: string, c: Context): System {
    s.(contexts := s.contexts[id := c])
  }

  function WithPc(s: System, id: string, pc: Pc): System
    requires id in s.calls
  {
    s.(calls := s.calls[id := s.calls[id].(pc := pc)])
  }

  /** close(ch): panics on a closed channel. */
  function Closed(s: System, id: string, who: ClosedBy): System
    requires id in s.contexts
  {
    if s.contexts[id].closedBy != Nobody then s.(panic := ClosedTwice)
    else WithContext(s, id, s.contexts[id].(closedBy := who))
  }

  /** One operation of the cleaner (status Timeout) or Close (status Failed) on an entry... */
  function Swept(s: System, at: Sweeper, status: Status, who: ClosedBy): System
    requires at.At? && at.id in s.contexts
  {
    var c := s.contexts[at.id];
    match at.phase
    case Mark => WithContext(s, at.id, c.(status := status))
    case Probe => if ReadyToReceive(c) then WithContext(s, at.id, Drained(c)) else s
    case Shut => Closed(s, at.id, who)
    case Delete => s.(registered := s.registered - {at.id})
  }

  /** ... and where it goes from there; `last` is where it is once the channel is dealt with. */
  function AfterSweep(s: System, at: Sweeper, last: Sweeper): Sweeper
    requires at.At? && at.id in s.contexts
  {
    match at.phase
    case Mark => At(at.id, Probe)
    case Probe => if ReadyToReceive(s.contexts[at.id]) then last else At(at.id, Shut)
    case Shut => last
    case Delete => Free
  }

  function CallerStep(s: System, step: Step): System
    requires Enabled(s, step)
  {
    match step
    case Begin(id, replyTopic, clientId, custom, time, timeout) =>
      s.(calls := s.calls[id := Call(RequestProperties(id, replyTopic, clientId, custom), Stored)],
         contexts := s.contexts[id := Context(Pending, None, Nobody, time, timeout)],
         registered := s.registered + {id})
    case SetProcessing(id) =>
      WithPc(WithContext(s, id, s.contexts[id].(status := Processing)), id, Sending)
    case SendDone(id, ok) =>
      WithPc(s, id, if ok then Awaiting else Finishing(SendError))
    case Take(id) =>
      var c := s.contexts[id];
      if c.slot.Some? then WithPc(WithContext(s, id, Drained(c)), id, Finishing(Got(c.slot.value)))
      else WithPc(s, id, Finishing(RequestTimeout))
    case ContextDone(id) => WithPc(s, id, Finishing(ContextError))
    case SetFinal(id) =>
      var r := s.calls[id].pc.result;
      WithPc(WithContext(s, id, s.contexts[id].(status := StatusFor(r))), id, Deleting(r))
    case DeleteEntry(id) =>
      WithPc(s.(registered := s.registered - {id}), id, Marking(s.calls[id].pc.result))
    case SetFailed(id) =>
      WithPc(WithContext(s, id, s.contexts[id].(status := Failed)), id, Probing(s.calls[id].pc.result))
    case ProbeOwn(id) =>
      var c, r := s.contexts[id], s.calls[id].pc.result;
      if ReadyToReceive(c) then WithPc(WithContext(s, id, Drained(c)), id, Returned(r)) else WithPc(s, id, Shutting(r))
    case CloseOwn(id) =>
      WithPc(Closed(s, id, ByCaller), id, Returned(s.calls[id].pc.result))
    case _ => s
  }

  function HandlerStep(s: System, step: Step): System
    requires Enabled(s, step)
  {
    match step
    case Load(h, reply) =>
      var id := CorrelationOf(reply.properties);
      if id != "" && id in s.registered then s.(handlers := s.handlers[h := Loaded(id, reply)]) else s
    case Check(h) =>
      var pc := s.handlers[h];
      if s.contexts[pc.id].status == Timeout then s.(handlers := s.handlers - {h})
      else s.(handlers := s.handlers[h := Passed(pc.id, pc.reply)])
    case Offer(h) =>
      var pc := s.handlers[h];
      var c, t := s.contexts[pc.id], s.(handlers := s.handlers - {h});
      if c.closedBy != Nobody then t.(panic := SentOnClosed)
      else if c.slot.Some? then t
      else WithContext(t, pc.id, c.(slot := Some(pc.reply)))
    case _ => s
  }

  function CleanerStep(s: System, step: Step): System
    requires Enabled(s, step)
  {
    match step
    case Pick(id, _) => s.(picked := s.picked + {id})
    case Remove(id) =>
      if id in s.registered
      then s.(picked := s.picked - {id}, registered := s.registered - {id}, cleaner := At(id, Mark))
      else s.(picked := s.picked - {id})
    case Sweep =>
      Swept(s, s.cleaner, Timeout, ByCleaner).(cleaner := AfterSweep(s, s.cleaner, Free))
    case _ => s
  }

  function CloseStep(s: System, step: Step): System
    requires Enabled(s, step)
  {
    match step
    case CloseBegin => s.(closing := true)
    case Visit(id) => s.(closer := At(id, Mark))
    case SweepClosing =>
      Swept(s, s.closer, Failed, ByClose).(closer := AfterSweep(s, s.closer, At(s.closer.id, Delete)))
    case _ => s
  }

  datatype Actor = Environment | Caller(id: string) | Handler(h: nat) | Cleaner | Closer

  function ActorOf(step: Step): Actor {
    match step
    case Begin(id, _, _, _, _, _) => Caller(id)
    case SetProcessing(id) => Caller(id)
    case SendDone(id, _) => Caller(id)
    case Take(id) => Caller(id)
    case ContextDone(id) => Caller(id)
    case SetFinal(id) => Caller(id)
    case DeleteEntry(id) => Caller(id)
    case SetFailed(id) => Caller(id)
    case ProbeOwn(id) => Caller(id)
    case CloseOwn(id) => Caller(id)
    case Post(_) => Environment
    case Load(h, _) => Handler(h)
    case Check(h) => Handler(h)
    case Offer(h) => Handler(h)
    case Pick(_, _) => Cleaner
    case Remove(_) => Cleaner
    case Sweep => Cleaner
    case CloseBegin => Closer
    case Visit(_) => Closer
    case SweepClosing => Closer
  }

  function Next(s: System, step: Step): System {
    if !Enabled(s, step) then s
    else
      match ActorOf(step)
      case Environment => if step.Post? then s.(wire := s.wire + {step.reply}) else s
      case Caller(_) => CallerStep(s, step)
      case Handler(_) => HandlerStep(s, step)
      case Cleaner => CleanerStep(s, step)
      case Closer => CloseStep(s, step)
  }

  function Exec(s: System, steps: seq<Step>): System
    decreases |steps|
  {
    if steps == [] then s else Exec(Next(s, steps[0]), steps[1..])
  }

  lemma ExecUnfold(s: System, steps: seq<Step>)
    requires steps != []
    ensures Exec(s, steps) == Exec(Next(s, steps[0]), steps[1..])
  {
  }

  lemma {:induction false} ExecAppend(s: System, a: seq<Step>, b: seq<Step>)
    ensures Exec(s, a + b) == Exec(Exec(s, a), b)
    decreases |a|
  {
    if a == [] {
      assert a + b == b;
    } else {
      assert (a + b)[1..] == a[1..] + b;
      ExecAppend(Next(s, a[0]), a[1..], b);
    }
  }
}

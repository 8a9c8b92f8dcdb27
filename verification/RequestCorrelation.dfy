/**
 What every interleaving of the request/response client keeps, however finely its operations are
 interleaved: a returned response carries the call's own correlation ID, and the map never holds
 more than the calls in flight.
 */
module RequestCorrelation {
  import opened Wrappers
  import opened RequestProtocol

  ghost predicate Fits(s: System, id: string, r: Reply) {
    CorrelationOf(r.properties) == id && r in s.wire
  }

  ghost predicate CallInv(s: System, id: string)
    requires id in s.calls
  {
    && id != "" && id in s.contexts
    && var c, pc := s.contexts[id], s.calls[id].pc;
       && (c.slot.Some? ==> Fits(s, id, c.slot.value))
       && (pc.Outcome().Some? && pc.Outcome().value.Got? ==> Fits(s, id, pc.Outcome().value.reply))
       && (id in s.registered ==> pc.BeforeDelete())
       && (c.closedBy == ByCaller ==> pc.Returned?)
       && (pc.Outcome() == Some(RequestTimeout) ==> c.closedBy == ByCleaner || c.closedBy == ByClose)
  }

  ghost predicate HandlerInv(s: System, pc: HandlerPc) {
    pc.id in s.calls && Fits(s, pc.id, pc.reply)
  }

  ghost predicate Inv(s: System) {
    && s.contexts.Keys == s.calls.Keys
    && s.registered <= s.calls.Keys && s.picked <= s.calls.Keys
    && (s.cleaner.At? ==> s.cleaner.id in s.calls)
    && (s.closer.At? ==> s.closer.id in s.calls)
    && (forall id :: id in s.calls ==> CallInv(s, id))
    && (forall h :: h in s.handlers ==> HandlerInv(s, s.handlers[h]))
  }

  // A step changes the call and context of at most one ID; the lemmas below say so actor by actor.

  /** Nothing that CallInv(_, id) and HandlerInv read has changed for the worse. */
  ghost predicate SameFor(s: System, t: System, id: string) {
    && (id in t.calls <==> id in s.calls) && (id in t.contexts <==> id in s.contexts)
    && (id in s.calls ==> t.calls[id] == s.calls[id])
    && (id in s.contexts ==> t.contexts[id] == s.contexts[id])
    && (id in t.registered ==> id in s.registered)
    && s.wire <= t.wire
  }

  lemma FrameCall(s: System, t: System, id: string)
    requires id in s.calls && CallInv(s, id) && SameFor(s, t, id)
    ensures id in t.calls && CallInv(t, id)
  {
  }

  /** It is enough to look at one ID and at the handlers that changed. */
  lemma {:induction false} LocalInv(s: System, t: System, own: string)
    requires Inv(s)
    requires own in t.calls <==> own in t.contexts
    requires forall id :: id != own ==> SameFor(s, t, id)
    requires own in t.calls ==> CallInv(t, own)
    requires s.wire <= t.wire && (own in s.calls ==> own in t.calls)
    requires own in t.registered ==> own in t.calls
    requires t.picked <= t.calls.Keys
    requires (t.cleaner.At? ==> t.cleaner.id in t.calls) && (t.closer.At? ==> t.closer.id in t.calls)
    requires forall h :: h in t.handlers ==>
                           (h in s.handlers && t.handlers[h] == s.handlers[h]) || HandlerInv(t, t.handlers[h])
    ensures Inv(t)
  {
    forall id ensures (id in t.calls <==> id in t.contexts) && (id in t.calls ==> CallInv(t, id))
                      && (id in t.registered ==> id in t.calls) && (id in s.calls ==> id in t.calls)
    {
      if id != own {
        assert SameFor(s, t, id);
        if id in s.calls {
          FrameCall(s, t, id);
        }
      }
    }
    forall h | h in t.handlers ensures HandlerInv(t, t.handlers[h]) {
      if h in s.handlers && t.handlers[h] == s.handlers[h] {
        assert HandlerInv(s, s.handlers[h]);
      }
    }
  }

  lemma CallerLocal(s: System, step: Step, id: string)
    requires Enabled(s, step) && ActorOf(step).Caller? && ActorOf(step).id != id
    ensures SameFor(s, CallerStep(s, step), id)
  {
  }

  lemma CallerRest(s: System, step: Step)
    requires Enabled(s, step) && ActorOf(step).Caller?
    ensures var t := CallerStep(s, step);
            && t.wire == s.wire && t.handlers == s.handlers && t.picked == s.picked
            && t.cleaner == s.cleaner && t.closer == s.closer && ActorOf(step).id in t.calls
  {
  }

  lemma {:induction false} CallerOwn(s: System, step: Step)
    requires Inv(s) && Enabled(s, step) && ActorOf(step).Caller?
    ensures var t, id := CallerStep(s, step), ActorOf(step).id;
            id in t.calls && id in t.contexts && CallInv(t, id)
  {
    if !step.Begin? {
      if step.SetProcessing? || step.SendDone? || step.Take? || step.ContextDone? {
        CallerOwnBody(s, step);
      } else if step.SetFinal? || step.DeleteEntry? || step.SetFailed? {
        CallerOwnMark(s, step);
      } else {
        CallerOwnClose(s, step);
      }
    }
  }

  lemma {:induction false} CallerOwnBody(s: System, step: Step)
    requires Inv(s) && Enabled(s, step) && (step.SetProcessing? || step.SendDone? || step.Take? || step.ContextDone?)
    ensures var t := CallerStep(s, step);
            step.id in t.calls && step.id in t.contexts && CallInv(t, step.id)
  {
    assert CallInv(s, step.id);
  }

  lemma {:induction false} CallerOwnMark(s: System, step: Step)
    requires Inv(s) && Enabled(s, step) && (step.SetFinal? || step.DeleteEntry? || step.SetFailed?)
    ensures var t := CallerStep(s, step);
            step.id in t.calls && step.id in t.contexts && CallInv(t, step.id)
  {
    assert CallInv(s, step.id);
  }

  lemma {:induction false} CallerOwnClose(s: System, step: Step)
    requires Inv(s) && Enabled(s, step) && (step.ProbeOwn? || step.CloseOwn?)
    ensures var t := CallerStep(s, step);
            step.id in t.calls && step.id in t.contexts && CallInv(t, step.id)
  {
    assert CallInv(s, step.id);
  }

  lemma {:induction false} CallerInv(s: System, step: Step)
    requires Inv(s) && Enabled(s, step) && ActorOf(step).Caller?
    ensures Inv(CallerStep(s, step))
  {
    var t, own := CallerStep(s, step), ActorOf(step).id;
    forall id | id != own ensures SameFor(s, t, id) {
      CallerLocal(s, step, id);
    }
    CallerOwn(s, step);
    CallerRest(s, step);
    assert t.calls.Keys >= s.calls.Keys by {
      forall id | id in s.calls ensures id in t.calls {
        assert id != own ==> SameFor(s, t, id);
      }
    }
    LocalInv(s, t, own);
  }

  lemma {:induction false} FrameInv(s: System, t: System)
    requires Inv(s) && t.calls == s.calls && t.contexts == s.contexts && t.handlers == s.handlers
    requires s.wire <= t.wire && t.registered <= s.registered && t.picked <= s.calls.Keys
    requires (t.cleaner.At? ==> t.cleaner.id in s.calls) && (t.closer.At? ==> t.closer.id in s.calls)
    ensures Inv(t)
  {
    if "" in s.calls {
      FrameCall(s, t, "");
    }
    LocalInv(s, t, "");
  }

  /** Changing one context, as every other actor does. */
  lemma {:induction false} ContextInv(s: System, id: string, c: Context)
    requires Inv(s) && id in s.calls
    requires c.slot.Some? ==> Fits(s, id, c.slot.value)
    requires c.closedBy == s.contexts[id].closedBy ||
             (c.closedBy != ByCaller && (s.calls[id].pc.Outcome() == Some(RequestTimeout) ==> c.closedBy != Nobody))
    ensures Inv(WithContext(s, id, c))
  {
    assert CallInv(s, id);
    LocalInv(s, WithContext(s, id, c), id);
  }

  /** Changing the set of handlers. */
  lemma {:induction false} HandlersInv(s: System, handlers: map<nat, HandlerPc>)
    requires Inv(s)
    requires forall h :: h in handlers ==> HandlerInv(s, handlers[h])
    ensures Inv(s.(handlers := handlers))
  {
    var t := s.(handlers := handlers);
    if "" in s.calls {
      FrameCall(s, t, "");
    }
    LocalInv(s, t, "");
  }

  lemma {:induction false} HandlerStepInv(s: System, step: Step)
    requires Inv(s) && Enabled(s, step) && ActorOf(step).Handler?
    ensures Inv(HandlerStep(s, step))
  {
    match step
    case Load(h, reply) =>
      var id := CorrelationOf(reply.properties);
      if id != "" && id in s.registered {
        HandlersInv(s, s.handlers[h := Loaded(id, reply)]);
      }
    case Check(h) =>
      var pc := s.handlers[h];
      assert HandlerInv(s, pc);
      HandlersInv(s, s.handlers - {h});
      HandlersInv(s, s.handlers[h := Passed(pc.id, pc.reply)]);
    case Offer(h) =>
      var pc := s.handlers[h];
      assert HandlerInv(s, pc);
      HandlersInv(s, s.handlers - {h});
      var t := s.(handlers := s.handlers - {h});
      if t.contexts[pc.id].closedBy != Nobody {
        FrameInv(t, t.(panic := SentOnClosed));
      } else {
        ContextInv(t, pc.id, t.contexts[pc.id].(slot := Some(pc.reply)));
      }
  }

  lemma {:induction false} ShutInv(s: System, id: string, who: ClosedBy)
    requires Inv(s) && id in s.calls && who != ByCaller && who != Nobody
    ensures Inv(Closed(s, id, who))
  {
    var c := s.contexts[id];
    assert CallInv(s, id);
    if c.closedBy != Nobody {
      FrameInv(s, s.(panic := ClosedTwice));
    } else {
      ContextInv(s, id, c.(closedBy := who));
    }
  }

  lemma {:induction false} MarkInv(s: System, id: string, c: Context)
    requires Inv(s) && id in s.calls && c.closedBy == s.contexts[id].closedBy
    requires c.slot == None || c.slot == s.contexts[id].slot
    ensures Inv(WithContext(s, id, c))
  {
    assert CallInv(s, id);
    ContextInv(s, id, c);
  }

  lemma {:induction false} SweptInv(s: System, at: Sweeper, status: Status, who: ClosedBy)
    requires Inv(s) && at.At? && at.id in s.contexts && who != ByCaller && who != Nobody
    ensures Inv(Swept(s, at, status, who))
  {
    match at.phase
    case Mark => MarkInv(s, at.id, s.contexts[at.id].(status := status));
    case Probe => MarkInv(s, at.id, Drained(s.contexts[at.id]));
    case Shut => ShutInv(s, at.id, who);
    case Delete => FrameInv(s, s.(registered := s.registered - {at.id}));
  }

  lemma {:induction false} CleanerInv(s: System, step: Step)
    requires Inv(s) && Enabled(s, step) && ActorOf(step) == Cleaner
    ensures Inv(CleanerStep(s, step))
  {
    if step.Sweep? {
      SweptInv(s, s.cleaner, Timeout, ByCleaner);
      FrameInv(Swept(s, s.cleaner, Timeout, ByCleaner), CleanerStep(s, step));
    } else {
      FrameInv(s, CleanerStep(s, step));
    }
  }

  lemma {:induction false} CloserInv(s: System, step: Step)
    requires Inv(s) && Enabled(s, step) && ActorOf(step) == Closer
    ensures Inv(CloseStep(s, step))
  {
    if step.SweepClosing? {
      SweptInv(s, s.closer, Failed, ByClose);
      FrameInv(Swept(s, s.closer, Failed, ByClose), CloseStep(s, step));
    } else {
      FrameInv(s, CloseStep(s, step));
    }
  }

  lemma {:induction false} NextInv(s: System, step: Step)
    requires Inv(s)
    ensures Inv(Next(s, step))
  {
    if Enabled(s, step) {
      match ActorOf(step)
      case Environment => FrameInv(s, s.(wire := s.wire + {step.reply}));
      case Caller(_) => CallerInv(s, step);
      case Handler(_) => HandlerStepInv(s, step);
      case Cleaner => CleanerInv(s, step);
      case Closer => CloserInv(s, step);
    }
  }

  /** A call that has returned stays returned, with its result, and one that has removed its entry has
      removed it for good. */
  ghost predicate Lasting(s: System, t: System) {
    forall id :: id in s.calls ==>
      && id in t.calls && t.calls[id].properties == s.calls[id].properties
      && (s.calls[id].pc.Returned? ==> t.calls[id].pc == s.calls[id].pc)
      && (t.calls[id].pc.BeforeDelete() ==> s.calls[id].pc.BeforeDelete())
  }

  lemma NextLasting(s: System, step: Step)
    ensures Lasting(s, Next(s, step))
  {
    forall id | id in s.calls
      ensures var t := Next(s, step);
              && id in t.calls && t.calls[id].properties == s.calls[id].properties
              && (s.calls[id].pc.Returned? ==> t.calls[id].pc == s.calls[id].pc)
              && (t.calls[id].pc.BeforeDelete() ==> s.calls[id].pc.BeforeDelete())
    {
      if Enabled(s, step) && ActorOf(step).Caller? {
        if ActorOf(step).id != id {
          CallerLocal(s, step, id);
        } else {
          OwnLasting(s, step);
        }
      }
    }
  }

  lemma OwnLasting(s: System, step: Step)
    requires Enabled(s, step) && ActorOf(step).Caller? && ActorOf(step).id in s.calls
    ensures var t, id := CallerStep(s, step), ActorOf(step).id;
            && !s.calls[id].pc.Returned? && id in t.calls && t.calls[id].properties == s.calls[id].properties
            && (t.calls[id].pc.BeforeDelete() ==> s.calls[id].pc.BeforeDelete())
  {
  }

  lemma {:induction false} RunLasting(s: System, steps: seq<Step>)
    ensures Lasting(s, Exec(s, steps))
    decreases |steps|
  {
    if steps != [] {
      NextLasting(s, steps[0]);
      RunLasting(Next(s, steps[0]), steps[1..]);
    }
  }

  lemma {:induction false} RunInv(s: System, steps: seq<Step>)
    requires Inv(s)
    ensures Inv(Exec(s, steps))
    decreases |steps|
  {
    if steps != [] {
      NextInv(s, steps[0]);
      RunInv(Next(s, steps[0]), steps[1..]);
    }
  }

  // ---------------------------------------------------------------------------------------------
  // What runs promise
  // ---------------------------------------------------------------------------------------------

  /** Correlation: a response that Request returns carries that call's correlation ID; and the call
      keeps that one result for good, whatever duplicates arrive later. The response has the reply's
      body and properties and is a success exactly if these carry no error. */
  lemma {:induction false} Correlated(steps: seq<Step>, more: seq<Step>, id: string)
    requires id in Exec(Start(), steps).calls
    requires Exec(Start(), steps).calls[id].pc.Returned? && Exec(Start(), steps).calls[id].pc.result.Got?
    ensures var pc := Exec(Start(), steps).calls[id].pc;
            var reply, response := pc.result.reply, ResponseOf(pc.result.reply);
            && CorrelationOf(response.properties) == id
            && response.body == reply.body && response.properties == reply.properties
            && (response.success <==> "ERROR" !in reply.properties)
            && response.error == (if "ERROR" in reply.properties then reply.properties["ERROR"] else "")
            && CallAt(Exec(Exec(Start(), steps), more), id, pc)
  {
    RunInv(Start(), steps);
    assert CallInv(Exec(Start(), steps), id);
    RunLasting(Exec(Start(), steps), more);
  }

  /** The steps that end a call's sending and waiting. */
  predicate EndsCall(step: Step, id: string) {
    step == SendDone(id, false) || step == Take(id) || step == ContextDone(id)
  }

  /** The result each brings: the send's failure; the response in the channel, or the timeout if it was
      closed instead; or the context's error. */
  function ResultAt(s: System, step: Step, id: string): RequestProtocol.Result
    requires EndsCall(step, id) && id in s.contexts
  {
    if step.SendDone? then SendError
    else if step.ContextDone? then ContextError
    else if s.contexts[id].slot.Some? then Got(s.contexts[id].slot.value) else RequestTimeout
  }

  function FirstResult(s: System, steps: seq<Step>, id: string): Option<RequestProtocol.Result>
    decreases |steps|
  {
    if steps == [] then None
    else if EndsCall(steps[0], id) && Enabled(s, steps[0]) && id in s.contexts then Some(ResultAt(s, steps[0], id))
    else FirstResult(Next(s, steps[0]), steps[1..], id)
  }

  lemma {:induction false} OutcomeLasts(s: System, step: Step, id: string)
    requires id in s.calls && s.calls[id].pc.Outcome().Some?
    ensures id in Next(s, step).calls && Next(s, step).calls[id].pc.Outcome() == s.calls[id].pc.Outcome()
  {
    if Enabled(s, step) && ActorOf(step).Caller? && ActorOf(step).id != id {
      CallerLocal(s, step, id);
    }
  }

  lemma {:induction false} RunOutcomeLasts(s: System, steps: seq<Step>, id: string)
    requires id in s.calls && s.calls[id].pc.Outcome().Some?
    ensures id in Exec(s, steps).calls && Exec(s, steps).calls[id].pc.Outcome() == s.calls[id].pc.Outcome()
    decreases |steps|
  {
    if steps != [] {
      OutcomeLasts(s, steps[0], id);
      RunOutcomeLasts(Next(s, steps[0]), steps[1..], id);
    }
  }

  /** The call's own step. */
  lemma {:induction false} OwnOutcome(s: System, step: Step, id: string)
    requires Enabled(s, step) && ActorOf(step) == Caller(id)
    requires id in s.calls ==> s.calls[id].pc.Outcome().None?
    requires EndsCall(step, id) ==> id in s.contexts
    ensures var t := CallerStep(s, step);
            && id in t.calls
            && t.calls[id].pc.Outcome() == if EndsCall(step, id) then Some(ResultAt(s, step, id)) else None
  {
    match step
    case SendDone(_, ok) =>
      assert CallerStep(s, step).calls[id].pc == if ok then Awaiting else Finishing(SendError);
    case _ =>
  }

  lemma {:induction false} OthersOutcome(s: System, step: Step, id: string)
    requires Enabled(s, step) && ActorOf(step) != Caller(id)
    ensures !EndsCall(step, id)
    ensures (id in Next(s, step).calls <==> id in s.calls)
    ensures id in s.calls ==> Next(s, step).calls[id] == s.calls[id]
  {
    if ActorOf(step).Caller? {
      CallerLocal(s, step, id);
    }
  }

  lemma {:induction false} NextOutcome(s: System, step: Step, id: string)
    requires Inv(s) && (id in s.calls ==> s.calls[id].pc.Outcome().None?)
    ensures var t := Next(s, step);
            if EndsCall(step, id) && Enabled(s, step)
            then id in t.calls && id in s.contexts && t.calls[id].pc.Outcome() == Some(ResultAt(s, step, id))
            else id in t.calls ==> t.calls[id].pc.Outcome().None?
  {
    if Enabled(s, step) {
      if ActorOf(step) == Caller(id) {
        OwnOutcome(s, step, id);
      } else {
        OthersOutcome(s, step, id);
      }
    }
  }

  lemma {:induction false} RunResult(s: System, steps: seq<Step>, id: string)
    requires Inv(s) && (id in s.calls ==> s.calls[id].pc.Outcome().None?)
    requires id in Exec(s, steps).calls
    ensures Exec(s, steps).calls[id].pc.Outcome() == FirstResult(s, steps, id)
    decreases |steps|
  {
    if steps != [] {
      var t := Next(s, steps[0]);
      NextOutcome(s, steps[0], id);
      if EndsCall(steps[0], id) && Enabled(s, steps[0]) {
        RunOutcomeLasts(t, steps[1..], id);
      } else {
        NextInv(s, steps[0]);
        RunResult(t, steps[1..], id);
      }
    }
  }

  /** What Request returns, in every interleaving: nothing until its send fails, it receives from its
      channel or its context is done, and then for good what the first of these brought. */
  lemma {:induction false} ResultExactly(steps: seq<Step>, id: string)
    requires id in Exec(Start(), steps).calls
    ensures Exec(Start(), steps).calls[id].pc.Outcome() == FirstResult(Start(), steps, id)
  {
    RunResult(Start(), steps, id);
  }

  /** The status a call's result leaves in its context, until the deferred function makes it Failed. */
  lemma {:induction false} FinalStatus(s: System, id: string)
    ensures Enabled(s, SetFinal(id)) ==>
              var result, status := s.calls[id].pc.result, Next(s, SetFinal(id)).contexts[id].status;
              && (status == Success <==> result.Got?)
              && (status == Timeout <==> result == RequestTimeout || result == ContextError)
              && (status == Failed <==> result == SendError)
    ensures Enabled(s, SetFailed(id)) ==> Next(s, SetFailed(id)).contexts[id].status == Failed
  {
  }

  /** Every reply that was published answers some call and echoes the ID in that call's request. */
  ghost predicate Echoing(s: System) {
    forall r :: r in s.wire ==>
      r.origin in s.calls && CorrelationOf(r.properties) == CorrelationOf(s.calls[r.origin].properties)
  }

  /** No caller's properties have replaced the reserved correlation ID by another one. */
  ghost predicate IdsIntact(s: System) {
    forall id :: id in s.calls ==> CorrelationOf(s.calls[id].properties) == id
  }

  /** A caller keeps its correlation ID exactly when its own properties do not set another. */
  lemma IntactExactly(id: string, replyTopic: string, clientId: string, custom: map<string, string>)
    ensures CorrelationOf(RequestProperties(id, replyTopic, clientId, custom)) == id
            <==> (CORRELATION_ID in custom ==> custom[CORRELATION_ID] == id)
  {
  }

  /** What a request carries: the caller's own properties, and the reserved ones they do not set. */
  lemma {:induction false} PropertiesExactly(id: string, replyTopic: string, clientId: string,
                                             custom: map<string, string>)
    ensures var properties := RequestProperties(id, replyTopic, clientId, custom);
            && properties.Keys == custom.Keys + {"CORRELATION_ID", "REPLY_TO", "CLIENT_ID"}
            && (forall k :: k in custom ==> properties[k] == custom[k])
            && ("CORRELATION_ID" !in custom ==> properties["CORRELATION_ID"] == id)
            && ("REPLY_TO" !in custom ==> properties["REPLY_TO"] == replyTopic)
            && ("CLIENT_ID" !in custom ==> properties["CLIENT_ID"] == clientId)
  {
    assert CORRELATION_ID != REPLY_TO && REPLY_TO != CLIENT_ID && CORRELATION_ID != CLIENT_ID by {
      assert CORRELATION_ID[1] == 'O' && REPLY_TO[1] == 'E' && CLIENT_ID[1] == 'L';
    }
  }

  /** With echoing responders a response that answers another call's request comes back only if that
      call's request carried this call's ID. */
  lemma {:induction false} OriginCarriesId(steps: seq<Step>, a: string)
    requires var s := Exec(Start(), steps);
             && Echoing(s) && a in s.calls
             && s.calls[a].pc.Outcome().Some? && s.calls[a].pc.Outcome().value.Got?
    ensures var s := Exec(Start(), steps);
            var b := s.calls[a].pc.Outcome().value.reply.origin;
            b in s.calls && CorrelationOf(s.calls[b].properties) == a
  {
    RunInv(Start(), steps);
    assert CallInv(Exec(Start(), steps), a);
  }

  /** So with intact IDs too, a returned response answers that very request. */
  lemma {:induction false} OwnReply(steps: seq<Step>, id: string)
    requires var s := Exec(Start(), steps);
             && Echoing(s) && IdsIntact(s)
             && id in s.calls && s.calls[id].pc.Returned? && s.calls[id].pc.result.Got?
    ensures Exec(Start(), steps).calls[id].pc.result.reply.origin == id
  {
    OriginCarriesId(steps, id);
  }

  /** In this run with echoing responders, a gets the reply to b, which was called with these
      properties. */
  ghost predicate Misdelivered(steps: seq<Step>, a: string, b: string, properties: map<string, string>, reply: Reply) {
    var s := Exec(Start(), steps);
    && Echoing(s) && a in s.calls && s.calls[a].pc.Outcome() == Some(Got(reply)) && reply.origin == b
    && b in s.calls && s.calls[b].properties == properties
  }

  /** Exactly when a reply can go astray: with echoing responders, some run gives a the reply to b if
      and only if b's caller set CORRELATION_ID to a's ID. */
  lemma {:induction false} OverriddenIdMisdelivers(a: string, b: string, replyTopic: string, clientId: string,
                                                   custom: map<string, string>)
    requires a != "" && b != "" && a != b
    ensures (exists steps, reply ::
               Misdelivered(steps, a, b, RequestProperties(b, replyTopic, clientId, custom), reply))
            <==> CORRELATION_ID in custom && custom[CORRELATION_ID] == a
  {
    var properties := RequestProperties(b, replyTopic, clientId, custom);
    forall steps, reply | Misdelivered(steps, a, b, properties, reply) ensures CorrelationOf(properties) == a {
      OriginCarriesId(steps, a);
    }
    if CORRELATION_ID in custom && custom[CORRELATION_ID] == a {
      var reply := Reply(b, map[CORRELATION_ID := a], "");
      var steps := Misdelivery(a, b, replyTopic, clientId, custom, reply);
      assert Misdelivered(steps, a, b, properties, reply);
    }
  }

  lemma {:induction false} Misdelivery(a: string, b: string, replyTopic: string, clientId: string,
                                       custom: map<string, string>, reply: Reply)
    returns (steps: seq<Step>)
    requires a != "" && b != "" && a != b && CORRELATION_ID in custom && custom[CORRELATION_ID] == a
    requires reply.origin == b && CorrelationOf(reply.properties) == a
    ensures Misdelivered(steps, a, b, RequestProperties(b, replyTopic, clientId, custom), reply)
  {
    var begin := [Begin(a, "", "", map[], 0, 1), Begin(b, replyTopic, clientId, custom, 0, 1)];
    var answer := [SetProcessing(a), SendDone(a, true), Post(reply)];
    var deliver := [Load(0, reply), Check(0), Offer(0), Take(a)];
    BothRegistered(a, b, replyTopic, clientId, custom, begin);
    var s := Exec(Start(), begin);
    SendsAndIsAnswered(s, a, b, reply, answer);
    DeliverAndTake(Exec(s, answer), a, b, reply);
    steps := begin + (answer + deliver);
    ExecAppend(Start(), begin, answer + deliver);
    ExecAppend(s, answer, deliver);
    RunLasting(s, answer + deliver);
  }

  /** A reply to b, correlated with a, is about to be delivered while a waits. */
  ghost predicate Misaddressed(s: System, a: string, b: string, reply: Reply) {
    && s.panic == NoPanic && s.handlers == map[] && s.wire == {reply} && reply.origin == b
    && CallAt(s, a, Awaiting) && a in s.registered && a in s.contexts
    && s.contexts[a].status == Processing && s.contexts[a].slot == None && s.contexts[a].closedBy == Nobody
    && CorrelationOf(reply.properties) == a != ""
    && b in s.calls && CorrelationOf(s.calls[b].properties) == a
  }

  lemma {:induction false} SendsAndIsAnswered(s: System, a: string, b: string, reply: Reply, steps: seq<Step>)
    requires a != "" && CorrelationOf(reply.properties) == a && reply.origin == b && a != b
    requires s.panic == NoPanic && s.handlers == map[] && s.wire == {}
    requires CallAt(s, a, Stored) && a in s.registered && a in s.contexts
    requires s.contexts[a].slot == None && s.contexts[a].closedBy == Nobody
    requires b in s.calls && CorrelationOf(s.calls[b].properties) == a
    requires steps == [SetProcessing(a), SendDone(a, true), Post(reply)]
    ensures Misaddressed(Exec(s, steps), a, b, reply)
  {
    var s1 := WithPc(WithContext(s, a, s.contexts[a].(status := Processing)), a, Sending);
    var s2 := WithPc(s1, a, Awaiting);
    var s3 := s2.(wire := {reply});
    assert Next(s, steps[0]) == s1;
    assert Next(s1, steps[1]) == s2;
    assert Next(s2, steps[2]) == s3;
    ExecUnfold(s, steps);
    ExecUnfold(s1, steps[1..]);
    ExecUnfold(s2, steps[2..]);
    assert Exec(s3, steps[3..]) == s3;
  }

  lemma {:induction false} BothRegistered(a: string, b: string, replyTopic: string, clientId: string,
                                          custom: map<string, string>, steps: seq<Step>)
    requires a != "" && b != "" && a != b && CORRELATION_ID in custom && custom[CORRELATION_ID] == a
    requires steps == [Begin(a, "", "", map[], 0, 1), Begin(b, replyTopic, clientId, custom, 0, 1)]
    ensures var s := Exec(Start(), steps);
            && CallAt(s, a, Stored) && a in s.registered && b in s.calls
            && s.calls[b].properties == RequestProperties(b, replyTopic, clientId, custom)
            && CorrelationOf(s.calls[b].properties) == a
            && s == Start().(calls := s.calls, contexts := s.contexts, registered := s.registered)
            && a in s.contexts && s.contexts[a] == Context(Pending, None, Nobody, 0, 1)
  {
    var s1 := Next(Start(), steps[0]);
    ExecUnfold(Start(), steps);
    ExecUnfold(s1, steps[1..]);
    assert Exec(Next(s1, steps[1]), steps[2..]) == Next(s1, steps[1]);
  }

  /** An undisturbed handler fills the slot of a waiting call. */
  lemma {:induction false} HandlerFills(s: System, id: string, reply: Reply)
    requires s.panic == NoPanic && s.handlers == map[] && reply in s.wire && CorrelationOf(reply.properties) == id != ""
    requires id in s.registered && id in s.contexts && s.contexts[id].status == Processing
    requires s.contexts[id].slot == None && s.contexts[id].closedBy == Nobody
    ensures var s1 := s.(handlers := map[0 := Loaded(id, reply)]);
            var s2 := s.(handlers := map[0 := Passed(id, reply)]);
            && Next(s, Load(0, reply)) == s1
            && Next(s1, Check(0)) == s2
            && Next(s2, Offer(0)) == WithContext(s, id, s.contexts[id].(slot := Some(reply)))
  {
    HandlerLoads(s, id, reply);
    var s1 := s.(handlers := map[0 := Loaded(id, reply)]);
    var s2 := s.(handlers := map[0 := Passed(id, reply)]);
    assert s1.handlers[0 := Passed(id, reply)] == s2.handlers;
    assert s2.handlers - {0} == map[];
  }

  lemma {:induction false} HandlerLoads(s: System, id: string, reply: Reply)
    requires s.panic == NoPanic && s.handlers == map[] && reply in s.wire && CorrelationOf(reply.properties) == id != ""
    requires id in s.registered
    ensures Next(s, Load(0, reply)) == s.(handlers := map[0 := Loaded(id, reply)])
  {
  }

  lemma {:induction false} DeliverAndTake(s: System, a: string, b: string, reply: Reply)
    requires Misaddressed(s, a, b, reply)
    ensures var t := Exec(s, [Load(0, reply), Check(0), Offer(0), Take(a)]);
            Echoing(t) && CallAt(t, a, Finishing(Got(reply)))
  {
    var steps := [Load(0, reply), Check(0), Offer(0), Take(a)];
    var s1 := s.(handlers := map[0 := Loaded(a, reply)]);
    var s2 := s.(handlers := map[0 := Passed(a, reply)]);
    var s3 := WithContext(s, a, s.contexts[a].(slot := Some(reply)));
    var s4 := Next(s3, Take(a));
    HandlerFills(s, a, reply);
    assert s4.wire == s.wire && CallAt(s4, a, Finishing(Got(reply)));
    assert b in s4.calls && s4.calls[b].properties == s.calls[b].properties;
    ExecUnfold(s, steps);
    ExecUnfold(s1, steps[1..]);
    ExecUnfold(s2, steps[2..]);
    ExecUnfold(s3, steps[3..]);
    assert Exec(s4, steps[4..]) == s4;
  }

  function InFlight(s: System): set<string> {
    set id | id in s.calls && !s.calls[id].pc.Returned?
  }

  /** Calls that have stored their entry and not yet run their deferred Delete. */
  function Undeleted(s: System): set<string> {
    set id | id in s.calls && s.calls[id].pc.BeforeDelete()
  }

  /** The calls GetPendingRequestCount counts. */
  function PendingIds(s: System): set<string> {
    set id | id in s.registered && id in s.contexts && s.contexts[id].status in {Pending, Processing}
  }

  lemma {:induction false} RegisteredUndeleted(s: System)
    requires Inv(s)
    ensures s.registered <= Undeleted(s) <= InFlight(s)
  {
    forall id | id in s.registered ensures id in Undeleted(s) {
      assert CallInv(s, id);
    }
  }

  /** No leak: the map holds only IDs of calls between Store and the deferred Delete, so its size and
      the pending count never exceed the calls in flight; and after its Delete, so a fortiori after
      its call returned, no ID is there or ever reappears. */
  lemma {:induction false} NoLeak(steps: seq<Step>, more: seq<Step>, id: string)
    ensures var s := Exec(Start(), steps);
            && s.registered <= Undeleted(s) <= InFlight(s)
            && |PendingIds(s)| <= |s.registered| <= |InFlight(s)|
            && (id in s.calls && !s.calls[id].pc.BeforeDelete() ==> id !in Exec(s, more).registered)
  {
    RunInv(Start(), steps);
    var s := Exec(Start(), steps);
    RegisteredUndeleted(s);
    SubsetCard(s.registered, InFlight(s));
    SubsetCard(PendingIds(s), s.registered);
    RunInv(s, more);
    RunLasting(s, more);
    RegisteredUndeleted(Exec(s, more));
  }

  lemma {:induction false} SubsetCard<T>(a: set<T>, b: set<T>)
    requires a <= b
    ensures |a| <= |b|
  {
    assert b == a + (b - a);
  }

  /** Request answers ErrRequestTimeout only if the cleaner or Close has closed its channel. */
  lemma {:induction false} TimeoutMeansClosed(steps: seq<Step>, id: string)
    requires id in Exec(Start(), steps).calls
    requires Exec(Start(), steps).calls[id].pc.Outcome() == Some(RequestTimeout)
    ensures var s := Exec(Start(), steps);
            id in s.contexts && (s.contexts[id].closedBy == ByCleaner || s.contexts[id].closedBy == ByClose)
  {
    RunInv(Start(), steps);
    assert CallInv(Exec(Start(), steps), id);
  }
}

/**
 The channel discipline. Nothing in the client makes its actors take turns, and a select with a
 default case does not protect a send on a closed channel. Of the five sections below, three have to
 run without another actor in between for the client never to panic: a response handler, the
 cleaner's treatment of one entry and Close's treatment of one entry. The other two, Request's
 deferred function and the cleaner's pause between selecting and removing, need not. Sparing calls
 that still wait for a reply takes the cleaner's two sections instead.
 */
module RequestDiscipline {
  import opened Wrappers
  import opened RequestProtocol
  import opened RequestCorrelation

  datatype Section =
    | Handling       // a response handler, from the map lookup to the send
    | Deferring      // Request's deferred function
    | Selecting      // a cleanup pass, while it has selected keys still to remove
    | Sweeping       // the cleaner's treatment of one entry
    | ClosingEntry   // Close's treatment of one entry

  const ALL := {Handling, Deferring, Selecting, Sweeping, ClosingEntry}

  /** No actor but this one is within such a section. */
  ghost predicate Idle(s: System, actor: Actor, section: Section) {
    match section
    case Handling => forall h :: h in s.handlers ==> actor == Handler(h)
    case Deferring => forall id :: id in s.calls && actor != Caller(id) ==> !s.calls[id].pc.InDeferred()
    case Selecting => actor != Cleaner ==> s.picked == {}
    case Sweeping => actor != Cleaner ==> s.cleaner == Free
    case ClosingEntry => actor != Closer ==> s.closer == Free
  }

  /** A run in which nobody moves while another actor is within this section. */
  ghost predicate Uninterrupted(s: System, steps: seq<Step>, section: Section)
    decreases |steps|
  {
    steps != [] ==>
      && (Enabled(s, steps[0]) ==> Idle(s, ActorOf(steps[0]), section))
      && Uninterrupted(Next(s, steps[0]), steps[1..], section)
  }

  ghost predicate Exclusive(s: System, steps: seq<Step>, sections: set<Section>) {
    forall section :: section in sections ==> Uninterrupted(s, steps, section)
  }

  lemma ExclusiveBut(s: System, steps: seq<Step>, sections: set<Section>, missing: Section)
    requires missing !in sections
    requires missing == Handling || Uninterrupted(s, steps, Handling)
    requires missing == Deferring || Uninterrupted(s, steps, Deferring)
    requires missing == Selecting || Uninterrupted(s, steps, Selecting)
    requires missing == Sweeping || Uninterrupted(s, steps, Sweeping)
    requires missing == ClosingEntry || Uninterrupted(s, steps, ClosingEntry)
    ensures Exclusive(s, steps, sections)
  {
    forall section | section in sections ensures Uninterrupted(s, steps, section) {
      match section
      case Handling =>
      case Deferring =>
      case Selecting =>
      case Sweeping =>
      case ClosingEntry =>
    }
  }

  /** The sections on which the absence of panics depends. */
  ghost predicate OthersIdle(s: System, actor: Actor) {
    Idle(s, actor, Handling) && Idle(s, actor, Sweeping) && Idle(s, actor, ClosingEntry)
  }

  /** One call, its context and its map entry. */
  ghost predicate EntryInv(s: System, id: string)
    requires id in s.calls && id in s.contexts
  {
    && (id in s.registered ==> s.calls[id].pc.BeforeDelete())
    && (s.contexts[id].closedBy != Nobody && id in s.registered ==> s.closer == At(id, Delete))
    && (s.calls[id].pc.Shutting? ==> s.contexts[id].closedBy == Nobody)
  }

  /** A sweeper's entry belongs to a call that is not in its deferred function. */
  ghost predicate CleanerSafe(s: System) {
    s.cleaner.At? ==>
      var id := s.cleaner.id;
      && id in s.calls && id in s.contexts && id !in s.registered && !s.calls[id].pc.InDeferred()
      && s.cleaner.phase != Delete
      && (s.cleaner.phase == Shut ==> s.contexts[id].closedBy == Nobody)
  }

  ghost predicate CloserSafe(s: System) {
    s.closer.At? ==>
      && s.closer.id in s.calls && s.closer.id in s.contexts && !s.calls[s.closer.id].pc.InDeferred()
      && (s.closer.phase == Shut ==> s.contexts[s.closer.id].closedBy == Nobody)
  }

  /** `last` is the actor of the latest step, the only one that may be within its section. */
  ghost predicate Disciplined(s: System, last: Actor) {
    && s.panic == NoPanic && OthersIdle(s, last) && CleanerSafe(s) && CloserSafe(s)
    && s.registered <= s.calls.Keys
    && (forall id :: id in s.calls ==> id in s.contexts && EntryInv(s, id))
    && (forall h :: h in s.handlers ==> s.handlers[h].id in s.registered)
  }

  /** Changing one context. */
  lemma {:induction false} ContextDisciplined(s: System, last: Actor, id: string, c: Context)
    requires Disciplined(s, last) && id in s.calls
    requires c.closedBy != Nobody && id in s.registered ==> s.closer == At(id, Delete)
    requires s.calls[id].pc.Shutting? || s.cleaner == At(id, Shut) || s.closer == At(id, Shut) ==> c.closedBy == Nobody
    ensures Disciplined(WithContext(s, id, c), last)
  {
    var t := WithContext(s, id, c);
    forall i | i in t.calls ensures i in t.contexts && EntryInv(t, i) {
      assert EntryInv(s, i);
    }
  }

  /** Moving one caller on. */
  lemma {:induction false} PcDisciplined(s: System, id: string, pc: Pc)
    requires Disciplined(s, Caller(id)) && id in s.calls
    requires id in s.registered ==> pc.BeforeDelete()
    requires pc.Shutting? ==> s.contexts[id].closedBy == Nobody
    ensures Disciplined(WithPc(s, id, pc), Caller(id))
  {
    var t := WithPc(s, id, pc);
    forall i | i in t.calls ensures i in t.contexts && EntryInv(t, i) {
      assert EntryInv(s, i);
    }
  }

  lemma {:induction false} BeginDisciplined(s: System, last: Actor, step: Step)
    requires Disciplined(s, last) && Enabled(s, step) && step.Begin? && OthersIdle(s, Caller(step.id))
    ensures Disciplined(CallerStep(s, step), Caller(step.id))
  {
    var t := CallerStep(s, step);
    forall i | i in t.calls ensures i in t.contexts && EntryInv(t, i) {
      if i != step.id {
        assert EntryInv(s, i);
      }
    }
  }

  lemma {:induction false} DeleteDisciplined(s: System, last: Actor, id: string)
    requires Disciplined(s, last) && id in s.calls && s.handlers == map[]
    ensures Disciplined(s.(registered := s.registered - {id}), last)
  {
    var t := s.(registered := s.registered - {id});
    forall i | i in t.calls ensures i in t.contexts && EntryInv(t, i) {
      assert EntryInv(s, i);
    }
  }

  lemma {:induction false} CallerDisciplined(s: System, last: Actor, step: Step)
    requires Disciplined(s, last) && Enabled(s, step) && ActorOf(step).Caller? && OthersIdle(s, ActorOf(step))
    ensures Disciplined(CallerStep(s, step), ActorOf(step))
  {
    if step.Begin? {
      BeginDisciplined(s, last, step);
    } else {
      assert Disciplined(s, ActorOf(step));
      if step.SetProcessing? || step.SendDone? || step.Take? || step.ContextDone? || step.SetFinal? {
        BodyDisciplined(s, step);
      } else {
        DeferredDisciplined(s, step);
      }
    }
  }

  /** The body of Request. */
  lemma {:induction false} BodyDisciplined(s: System, step: Step)
    requires Enabled(s, step)
    requires step.SetProcessing? || step.SendDone? || step.Take? || step.ContextDone? || step.SetFinal?
    requires Disciplined(s, Caller(step.id))
    ensures Disciplined(CallerStep(s, step), Caller(step.id))
  {
    var id := step.id;
    assert EntryInv(s, id);
    var c := s.contexts[id];
    match step
    case SetProcessing(_) =>
      ContextDisciplined(s, Caller(id), id, c.(status := Processing));
      PcDisciplined(WithContext(s, id, c.(status := Processing)), id, Sending);
    case SendDone(_, ok) =>
      PcDisciplined(s, id, if ok then Awaiting else Finishing(SendError));
    case Take(_) =>
      if c.slot.Some? {
        ContextDisciplined(s, Caller(id), id, Drained(c));
        PcDisciplined(WithContext(s, id, Drained(c)), id, Finishing(Got(c.slot.value)));
      } else {
        PcDisciplined(s, id, Finishing(RequestTimeout));
      }
    case ContextDone(_) =>
      PcDisciplined(s, id, Finishing(ContextError));
    case SetFinal(_) =>
      var r := s.calls[id].pc.result;
      ContextDisciplined(s, Caller(id), id, c.(status := StatusFor(r)));
      PcDisciplined(WithContext(s, id, c.(status := StatusFor(r))), id, Deleting(r));
  }

  /** Its deferred function. */
  lemma {:induction false} DeferredDisciplined(s: System, step: Step)
    requires Enabled(s, step) && (step.DeleteEntry? || step.SetFailed? || step.ProbeOwn? || step.CloseOwn?)
    requires Disciplined(s, Caller(step.id))
    ensures Disciplined(CallerStep(s, step), Caller(step.id))
  {
    var id := step.id;
    assert EntryInv(s, id);
    var c, r := s.contexts[id], s.calls[id].pc.result;
    match step
    case DeleteEntry(_) =>
      assert s.handlers == map[];
      DeleteDisciplined(s, Caller(id), id);
      PcDisciplined(s.(registered := s.registered - {id}), id, Marking(r));
    case SetFailed(_) =>
      ContextDisciplined(s, Caller(id), id, c.(status := Failed));
      PcDisciplined(WithContext(s, id, c.(status := Failed)), id, Probing(r));
    case ProbeOwn(_) =>
      if ReadyToReceive(c) {
        ContextDisciplined(s, Caller(id), id, Drained(c));
        PcDisciplined(WithContext(s, id, Drained(c)), id, Returned(r));
      } else {
        PcDisciplined(s, id, Shutting(r));
      }
    case CloseOwn(_) =>
      PcDisciplined(s, id, Returned(r));
      ContextDisciplined(WithPc(s, id, Returned(r)), Caller(id), id, c.(closedBy := ByCaller));
      assert CallerStep(s, step) == WithContext(WithPc(s, id, Returned(r)), id, c.(closedBy := ByCaller));
  }

  lemma {:induction false} HandlerDisciplined(s: System, last: Actor, step: Step)
    requires Disciplined(s, last) && Enabled(s, step) && ActorOf(step).Handler? && OthersIdle(s, ActorOf(step))
    ensures Disciplined(HandlerStep(s, step), ActorOf(step))
  {
    if step.Offer? {
      var id := s.handlers[step.h].id;
      var c, t := s.contexts[id], s.(handlers := s.handlers - {step.h});
      assert EntryInv(s, id);
      assert Disciplined(t, ActorOf(step)) by {
        SameEntries(s, t);
      }
      ContextDisciplined(t, ActorOf(step), id, c.(slot := Some(s.handlers[step.h].reply)));
    } else {
      SameEntries(s, HandlerStep(s, step));
    }
  }

  /** Entries are unaffected by the sweepers (but see EntryInv on Delete), handlers and wire. */
  lemma {:induction false} SameEntries(s: System, t: System)
    requires forall id :: id in s.calls ==> id in s.contexts && EntryInv(s, id)
    requires t.calls == s.calls && t.contexts == s.contexts && t.registered <= s.registered
    requires forall id :: id in t.registered && id in s.contexts && s.contexts[id].closedBy != Nobody ==>
                            s.closer == At(id, Delete) ==> t.closer == s.closer
    ensures forall id :: id in t.calls ==> id in t.contexts && EntryInv(t, id)
  {
    forall id | id in t.calls ensures id in t.contexts && EntryInv(t, id) {
      assert EntryInv(s, id);
    }
  }

  lemma {:induction false} CleanerDisciplined(s: System, last: Actor, step: Step)
    requires Disciplined(s, last) && Enabled(s, step) && ActorOf(step) == Cleaner && OthersIdle(s, Cleaner)
    ensures Disciplined(CleanerStep(s, step), Cleaner)
  {
    match step
    case Pick(id, _) =>
      assert EntryInv(s, id);
      SameEntries(s, CleanerStep(s, step));
    case Remove(id) =>
      assert s.handlers == map[];
      SameEntries(s, CleanerStep(s, step));
    case Sweep =>
      var id := s.cleaner.id;
      var t := s.(cleaner := AfterSweep(s, s.cleaner, Free));
      assert EntryInv(s, id);
      SameEntries(s, t);
      if s.cleaner.phase == Mark {
        ContextDisciplined(t, Cleaner, id, s.contexts[id].(status := Timeout));
      } else if s.cleaner.phase == Probe {
        ContextDisciplined(t, Cleaner, id, Drained(s.contexts[id]));
      } else {
        ContextDisciplined(t, Cleaner, id, s.contexts[id].(closedBy := ByCleaner));
      }
    case _ =>
  }

  lemma {:induction false} CloserDisciplined(s: System, last: Actor, step: Step)
    requires Disciplined(s, last) && Enabled(s, step) && ActorOf(step) == Closer && OthersIdle(s, Closer)
    ensures Disciplined(CloseStep(s, step), Closer)
  {
    if step.SweepClosing? {
      var id := s.closer.id;
      var t := s.(closer := AfterSweep(s, s.closer, At(id, Delete)));
      assert EntryInv(s, id) && s.handlers == map[];
      match s.closer.phase
      case Mark =>
        SameEntries(s, t);
        ContextDisciplined(t, Closer, id, s.contexts[id].(status := Failed));
      case Probe =>
        SameEntries(s, t);
        ContextDisciplined(t, Closer, id, Drained(s.contexts[id]));
      case Shut =>
        SameEntries(s, t);
        ContextDisciplined(t, Closer, id, s.contexts[id].(closedBy := ByClose));
      case Delete =>
        SameEntries(s, CloseStep(s, step));
    } else {
      SameEntries(s, CloseStep(s, step));
    }
  }

  lemma {:induction false} NextDisciplined(s: System, last: Actor, step: Step)
    requires Disciplined(s, last) && Enabled(s, step) && OthersIdle(s, ActorOf(step))
    ensures Disciplined(Next(s, step), ActorOf(step))
  {
    match ActorOf(step)
    case Environment => SameEntries(s, Next(s, step));
    case Caller(_) => CallerDisciplined(s, last, step);
    case Handler(_) => HandlerDisciplined(s, last, step);
    case Cleaner => CleanerDisciplined(s, last, step);
    case Closer => CloserDisciplined(s, last, step);
  }

  lemma {:induction false} RunDisciplined(s: System, last: Actor, steps: seq<Step>) returns (latest: Actor)
    requires Disciplined(s, last)
    requires Uninterrupted(s, steps, Handling) && Uninterrupted(s, steps, Sweeping)
    requires Uninterrupted(s, steps, ClosingEntry)
    ensures Disciplined(Exec(s, steps), latest)
    decreases |steps|
  {
    latest := last;
    if steps != [] {
      if Enabled(s, steps[0]) {
        NextDisciplined(s, last, steps[0]);
        latest := ActorOf(steps[0]);
      }
      latest := RunDisciplined(Next(s, steps[0]), latest, steps[1..]);
    }
  }

  /** No panic, and every registered context has an open channel (but for the one entry Close is
      about to delete): hence no channel is closed twice, none is sent on after it was closed. */
  lemma {:induction false} ChannelDiscipline(steps: seq<Step>, id: string)
    requires Exclusive(Start(), steps, {Handling, Sweeping, ClosingEntry})
    ensures var s := Exec(Start(), steps);
            && s.panic == NoPanic
            && (id in s.registered ==>
                  id in s.contexts && (s.contexts[id].closedBy == Nobody || s.closer == At(id, Delete)))
  {
    var latest := RunDisciplined(Start(), Environment, steps);
    var s := Exec(Start(), steps);
    if id in s.registered {
      assert EntryInv(s, id);
    }
  }
}

/**
 Which of the client's sections have to be uninterrupted for it never to panic: runs that interrupt
 one of them and end in a panic, and with them the exact condition.
 */
module RequestInterruptions {
  import opened Wrappers
  import opened RequestProtocol
  import opened RequestCorrelation
  import opened RequestDiscipline

  // ---------------------------------------------------------------------------------------------
  // Runs and the sections they interrupt
  // ---------------------------------------------------------------------------------------------

  /** Nobody is within the section. */
  ghost predicate Resting(s: System, section: Section) {
    match section
    case Handling => s.handlers == map[]
    case Deferring => forall id :: id in s.calls ==> !s.calls[id].pc.InDeferred()
    case Selecting => s.picked == {}
    case Sweeping => s.cleaner == Free
    case ClosingEntry => s.closer == Free
  }

  predicate Enters(step: Step, section: Section) {
    match section
    case Handling => step.Load?
    case Deferring => step.DeleteEntry?
    case Selecting => step.Pick?
    case Sweeping => step.Remove?
    case ClosingEntry => step.Visit?
  }

  predicate NeverEnters(steps: seq<Step>, section: Section) {
    forall i :: 0 <= i < |steps| ==> !Enters(steps[i], section)
  }

  /** What one actor does leaves the others' places alone. */
  lemma {:induction false} OtherPlaces(s: System, step: Step)
    ensures var t := Next(s, step);
            && (!step.Load? && s.handlers == map[] ==> t.handlers == map[])
            && (!ActorOf(step).Handler? ==> t.handlers == s.handlers)
            && (ActorOf(step) != Cleaner ==> t.cleaner == s.cleaner && t.picked == s.picked)
            && (ActorOf(step) != Closer ==> t.closer == s.closer)
  {
    if Enabled(s, step) && ActorOf(step).Caller? {
      CallerRest(s, step);
    }
  }

  lemma {:induction false} DeferredStays(s: System, step: Step, id: string)
    requires id in Next(s, step).calls && Next(s, step).calls[id].pc.InDeferred()
    ensures id in s.calls && (s.calls[id].pc.InDeferred() || step == DeleteEntry(id))
    ensures ActorOf(step) == Caller(id) || s.calls[id].pc.InDeferred()
  {
    if Enabled(s, step) && ActorOf(step).Caller? && ActorOf(step).id != id {
      CallerLocal(s, step, id);
    }
  }

  lemma {:induction false} RestingStays(s: System, step: Step, section: Section)
    requires Resting(s, section) && !Enters(step, section)
    ensures Resting(Next(s, step), section)
  {
    OtherPlaces(s, step);
    if section == Deferring {
      forall id | id in Next(s, step).calls ensures !Next(s, step).calls[id].pc.InDeferred() {
        if Next(s, step).calls[id].pc.InDeferred() {
          DeferredStays(s, step, id);
        }
      }
    }
  }

  /** A run that never enters a section does not interrupt it. */
  lemma {:induction false} NotEntered(s: System, steps: seq<Step>, section: Section)
    requires Resting(s, section) && NeverEnters(steps, section)
    ensures Uninterrupted(s, steps, section) && Resting(Exec(s, steps), section)
    decreases |steps|
  {
    if steps != [] {
      RestingStays(s, steps[0], section);
      NotEntered(Next(s, steps[0]), steps[1..], section);
    }
  }

  lemma {:induction false} IdleStays(s: System, step: Step, section: Section)
    requires Idle(s, ActorOf(step), section)
    ensures Idle(Next(s, step), ActorOf(step), section)
  {
    OtherPlaces(s, step);
    if section == Deferring {
      var t := Next(s, step);
      forall id | id in t.calls && ActorOf(step) != Caller(id) ensures !t.calls[id].pc.InDeferred() {
        if t.calls[id].pc.InDeferred() {
          DeferredStays(s, step, id);
        }
      }
    }
  }

  /** Nor does a run of the only actor within it. */
  lemma {:induction false} OwnSection(s: System, steps: seq<Step>, section: Section, actor: Actor)
    requires Idle(s, actor, section) && forall i :: 0 <= i < |steps| ==> ActorOf(steps[i]) == actor
    ensures Uninterrupted(s, steps, section) && Idle(Exec(s, steps), actor, section)
    decreases |steps|
  {
    if steps != [] {
      IdleStays(s, steps[0], section);
      OwnSection(Next(s, steps[0]), steps[1..], section, actor);
    }
  }

  lemma {:induction false} UninterruptedAppend(s: System, a: seq<Step>, b: seq<Step>, section: Section)
    requires Uninterrupted(s, a, section) && Uninterrupted(Exec(s, a), b, section)
    ensures Uninterrupted(s, a + b, section)
    decreases |a|
  {
    if a == [] {
      assert a + b == b;
    } else {
      assert (a + b)[0] == a[0] && (a + b)[1..] == a[1..] + b;
      UninterruptedAppend(Next(s, a[0]), a[1..], b, section);
    }
  }

  lemma NeverEntersAppend(a: seq<Step>, b: seq<Step>, section: Section)
    requires NeverEnters(a, section) && NeverEnters(b, section)
    ensures NeverEnters(a + b, section)
  {
  }

  // ---------------------------------------------------------------------------------------------
  // What finer interleavings allow
  // ---------------------------------------------------------------------------------------------

  /** A call that is sent off and waits. */
  function Waiting(id: string): seq<Step> {
    [Begin(id, "", "", map[], 0, 1), SetProcessing(id), SendDone(id, true)]
  }

  /** Its context is done. */
  function GivingUp(id: string): seq<Step> {
    [ContextDone(id), SetFinal(id)]
  }

  /** Its deferred function, on an empty open channel. */
  function Leaving(id: string): seq<Step> {
    [DeleteEntry(id), SetFailed(id), ProbeOwn(id), CloseOwn(id)]
  }

  /** A call with an empty open channel, nobody being in the deferred function. */
  ghost predicate EmptyAndOpen(s: System, id: string, pc: Pc) {
    && s.panic == NoPanic && CallAt(s, id, pc) && id in s.contexts
    && s.contexts[id].slot == None && s.contexts[id].closedBy == Nobody
  }

  lemma {:induction false} WaitingReached(id: string)
    requires id != ""
    ensures var s := Exec(Start(), Waiting(id));
            && EmptyAndOpen(s, id, Awaiting) && id in s.registered && s.contexts[id].status == Processing
            && s == Start().(calls := s.calls, contexts := s.contexts, registered := s.registered)
  {
    var steps := Waiting(id);
    var s1 := Next(Start(), steps[0]);
    var s2 := Next(s1, steps[1]);
    var s3 := Next(s2, steps[2]);
    ExecUnfold(Start(), steps);
    ExecUnfold(s1, steps[1..]);
    ExecUnfold(s2, steps[2..]);
    assert Exec(s3, steps[3..]) == s3;
  }

  lemma {:induction false} GivesUp(s: System, id: string)
    requires EmptyAndOpen(s, id, Awaiting)
    ensures Exec(s, GivingUp(id)) ==
            WithPc(WithContext(s, id, s.contexts[id].(status := Timeout)), id, Deleting(ContextError))
  {
    var steps := GivingUp(id);
    var s1 := WithPc(s, id, Finishing(ContextError));
    assert Next(s, ContextDone(id)) == s1;
    var s2 := WithPc(WithContext(s, id, s.contexts[id].(status := Timeout)), id, Deleting(ContextError));
    assert Next(s1, SetFinal(id)) == s2;
    ExecUnfold(s, steps);
    ExecUnfold(s1, steps[1..]);
    assert Exec(s2, steps[2..]) == s2;
  }

  lemma {:induction false} Leaves(s: System, id: string)
    requires EmptyAndOpen(s, id, Deleting(ContextError))
    ensures Exec(s, Leaving(id)) ==
            WithPc(WithContext(s.(registered := s.registered - {id}), id,
                               s.contexts[id].(status := Failed, closedBy := ByCaller)),
                   id, Returned(ContextError))
  {
    var steps, c := Leaving(id), s.contexts[id];
    var s1 := WithPc(s.(registered := s.registered - {id}), id, Marking(ContextError));
    var s2 := WithPc(WithContext(s1, id, c.(status := Failed)), id, Probing(ContextError));
    var s3 := WithPc(s2, id, Shutting(ContextError));
    var s4 := Next(s3, CloseOwn(id));
    assert Next(s, DeleteEntry(id)) == s1;
    assert Next(s1, SetFailed(id)) == s2;
    assert Next(s2, ProbeOwn(id)) == s3;
    ExecUnfold(s, steps);
    ExecUnfold(s1, steps[1..]);
    ExecUnfold(s2, steps[2..]);
    ExecUnfold(s3, steps[3..]);
    assert Exec(s4, steps[4..]) == s4;
  }

  /** A run in which a call leaves undisturbed, and one more step of somebody else. */
  function LeavingRun(early: seq<Step>, id: string, last: Step): seq<Step> {
    early + Leaving(id) + [last]
  }

  lemma {:induction false} LeavingRunEnds(early: seq<Step>, id: string, last: Step)
    requires EmptyAndOpen(Exec(Start(), early), id, Deleting(ContextError))
    ensures Exec(Start(), LeavingRun(early, id, last)) == Next(Exec(Exec(Start(), early), Leaving(id)), last)
  {
    var t := Exec(Start(), early + Leaving(id));
    ExecAppend(Start(), early, Leaving(id));
    ExecAppend(Start(), early + Leaving(id), [last]);
    ExecUnfold(t, [last]);
    assert [last][1..] == [];
  }

  /** Such a run does not interrupt the deferred function. */
  lemma {:induction false} DeferringKept(early: seq<Step>, id: string, last: Step)
    requires EmptyAndOpen(Exec(Start(), early), id, Deleting(ContextError))
    requires NeverEnters(early, Deferring) && !last.DeleteEntry?
    ensures Uninterrupted(Start(), LeavingRun(early, id, last), Deferring)
  {
    var s := Exec(Start(), early);
    var t := Exec(s, Leaving(id));
    NotEntered(Start(), early, Deferring);
    OwnSection(s, Leaving(id), Deferring, Caller(id));
    Leaves(s, id);
    assert Resting(t, Deferring) by {
      assert CallAt(t, id, Returned(ContextError));
    }
    NotEntered(t, [last], Deferring);
    UninterruptedAppend(Start(), early, Leaving(id), Deferring);
    ExecAppend(Start(), early, Leaving(id));
    UninterruptedAppend(Start(), early + Leaving(id), [last], Deferring);
  }

  /** Nor any other section that neither its beginning nor its last step enters. */
  lemma {:induction false} SectionKept(early: seq<Step>, id: string, last: Step, section: Section)
    requires section != Deferring && NeverEnters(early, section) && !Enters(last, section)
    ensures Uninterrupted(Start(), LeavingRun(early, id, last), section)
  {
    assert NeverEnters(Leaving(id), section) && NeverEnters([last], section);
    NeverEntersAppend(early, Leaving(id), section);
    NeverEntersAppend(early + Leaving(id), [last], section);
    NotEntered(Start(), LeavingRun(early, id, last), section);
  }

  lemma {:induction false} EarlyEnters(id: string, middle: seq<Step>, section: Section)
    requires NeverEnters(middle, section)
    ensures NeverEnters(Waiting(id) + middle + GivingUp(id), section)
    ensures NeverEnters(Waiting(id) + GivingUp(id), section)
    ensures NeverEnters(Waiting(id) + GivingUp(id) + middle, section)
  {
    assert NeverEnters(Waiting(id), section) && NeverEnters(GivingUp(id), section);
    NeverEntersAppend(Waiting(id), middle, section);
    NeverEntersAppend(Waiting(id) + middle, GivingUp(id), section);
    NeverEntersAppend(Waiting(id), GivingUp(id), section);
    NeverEntersAppend(Waiting(id) + GivingUp(id), middle, section);
  }

  ghost predicate SentAfterCallerClosed(s: System, id: string) {
    s.panic == SentOnClosed && id in s.contexts && s.contexts[id].closedBy == ByCaller
  }

  function HandlerEarly(id: string, reply: Reply): seq<Step> {
    Waiting(id) + [Post(reply), Load(0, reply), Check(0)] + GivingUp(id)
  }

  lemma {:induction false} HandlerEarlyEnters(id: string, reply: Reply, section: Section)
    requires section != Handling
    ensures NeverEnters(HandlerEarly(id, reply), section)
  {
    EarlyEnters(id, [Post(reply), Load(0, reply), Check(0)], section);
  }

  lemma {:induction false} HandlerEarlyEnds(id: string, reply: Reply)
    requires id != "" && CorrelationOf(reply.properties) == id
    ensures var s := Exec(Start(), HandlerEarly(id, reply));
            EmptyAndOpen(s, id, Deleting(ContextError)) && s.handlers == map[0 := Passed(id, reply)]
  {
    var handling := [Post(reply), Load(0, reply), Check(0)];
    var s := Exec(Start(), Waiting(id));
    WaitingReached(id);
    HandlerStarts(s, id, reply, handling);
    GivesUp(Exec(s, handling), id);
    JoinRuns(Start(), Waiting(id), handling, GivingUp(id));
  }

  lemma {:induction false} OfferPanics(s: System, id: string, reply: Reply)
    requires EmptyAndOpen(s, id, Deleting(ContextError)) && s.handlers == map[0 := Passed(id, reply)]
    ensures SentAfterCallerClosed(Next(Exec(s, Leaving(id)), Offer(0)), id)
  {
    Leaves(s, id);
  }

  /** A response handler that has found its entry is overtaken by the caller's timeout and cleanup,
      and then sends on the channel the caller has closed. No other section is interrupted. */
  lemma {:induction false} SendOnClosedReachable(id: string, reply: Reply)
    requires id != "" && CorrelationOf(reply.properties) == id
    ensures exists steps ::
              Exclusive(Start(), steps, ALL - {Handling}) && SentAfterCallerClosed(Exec(Start(), steps), id)
  {
    var early := HandlerEarly(id, reply);
    var steps := LeavingRun(early, id, Offer(0));
    forall section | section != Handling ensures NeverEnters(early, section) {
      HandlerEarlyEnters(id, reply, section);
    }
    HandlerEarlyEnds(id, reply);
    OfferPanics(Exec(Start(), early), id, reply);
    LeavingRunEnds(early, id, Offer(0));
    DeferringKept(early, id, Offer(0));
    SectionKept(early, id, Offer(0), Selecting);
    SectionKept(early, id, Offer(0), Sweeping);
    SectionKept(early, id, Offer(0), ClosingEntry);
    ExclusiveBut(Start(), steps, ALL - {Handling}, Handling);
  }

  lemma {:induction false} HandlerStarts(s: System, id: string, reply: Reply, steps: seq<Step>)
    requires EmptyAndOpen(s, id, Awaiting) && id in s.registered && s.contexts[id].status == Processing
    requires s.handlers == map[] && id != "" && CorrelationOf(reply.properties) == id
    requires steps == [Post(reply), Load(0, reply), Check(0)]
    ensures Exec(s, steps) == s.(wire := s.wire + {reply}, handlers := map[0 := Passed(id, reply)])
  {
    var s1 := s.(wire := s.wire + {reply});
    var s2 := s1.(handlers := map[0 := Loaded(id, reply)]);
    var s3 := s1.(handlers := map[0 := Passed(id, reply)]);
    assert Next(s, Post(reply)) == s1;
    assert Next(s1, Load(0, reply)) == s2 && Next(s2, Check(0)) == s3 by {
      HandlerFills(s1, id, reply);
    }
    ExecUnfold(s, steps);
    ExecUnfold(s1, steps[1..]);
    ExecUnfold(s2, steps[2..]);
    assert Exec(s3, steps[3..]) == s3;
  }

  /** The caller has closed the channel, and Close, on its way to deleting the entry, closed it again. */
  ghost predicate ClosedByBoth(s: System, id: string) {
    && s.panic == ClosedTwice && id in s.contexts && s.contexts[id].closedBy == ByCaller
    && s.closer == At(id, Delete)
  }

  function CloseEarly(id: string): seq<Step> {
    Waiting(id) + [CloseBegin, Visit(id), SweepClosing, SweepClosing] + GivingUp(id)
  }

  lemma {:induction false} CloseEarlyEnters(id: string, section: Section)
    requires section != ClosingEntry
    ensures NeverEnters(CloseEarly(id), section)
  {
    EarlyEnters(id, [CloseBegin, Visit(id), SweepClosing, SweepClosing], section);
  }

  lemma {:induction false} CloseEarlyEnds(id: string)
    requires id != ""
    ensures var s := Exec(Start(), CloseEarly(id));
            EmptyAndOpen(s, id, Deleting(ContextError)) && s.closer == At(id, Shut)
  {
    var closing := [CloseBegin, Visit(id), SweepClosing, SweepClosing];
    var s := Exec(Start(), Waiting(id));
    WaitingReached(id);
    CloseProbes(s, id, closing);
    GivesUp(Exec(s, closing), id);
    JoinRuns(Start(), Waiting(id), closing, GivingUp(id));
  }

  lemma {:induction false} SweepClosingPanics(s: System, id: string)
    requires EmptyAndOpen(s, id, Deleting(ContextError)) && s.closer == At(id, Shut)
    ensures ClosedByBoth(Next(Exec(s, Leaving(id)), SweepClosing), id)
  {
    Leaves(s, id);
  }

  /** Close and the caller's deferred function both find the channel empty and open, and both close
      it. No section but Close's is interrupted. */
  lemma {:induction false} DoubleCloseReachable(id: string)
    requires id != ""
    ensures exists steps ::
              Exclusive(Start(), steps, ALL - {ClosingEntry}) && ClosedByBoth(Exec(Start(), steps), id)
  {
    var early := CloseEarly(id);
    var steps := LeavingRun(early, id, SweepClosing);
    forall section | section != ClosingEntry ensures NeverEnters(early, section) {
      CloseEarlyEnters(id, section);
    }
    CloseEarlyEnds(id);
    SweepClosingPanics(Exec(Start(), early), id);
    LeavingRunEnds(early, id, SweepClosing);
    DeferringKept(early, id, SweepClosing);
    SectionKept(early, id, SweepClosing, Handling);
    SectionKept(early, id, SweepClosing, Selecting);
    SectionKept(early, id, SweepClosing, Sweeping);
    ExclusiveBut(Start(), steps, ALL - {ClosingEntry}, ClosingEntry);
  }

  lemma {:induction false} CloseProbes(s: System, id: string, steps: seq<Step>)
    requires EmptyAndOpen(s, id, Awaiting) && id in s.registered
    requires !s.closing && s.cleaner == Free && s.picked == {} && s.closer == Free
    requires steps == [CloseBegin, Visit(id), SweepClosing, SweepClosing]
    ensures Exec(s, steps) ==
            WithContext(s, id, s.contexts[id].(status := Failed)).(closing := true, closer := At(id, Shut))
  {
    var s1 := s.(closing := true);
    var s2 := s1.(closer := At(id, Mark));
    var s3 := WithContext(s1, id, s.contexts[id].(status := Failed)).(closer := At(id, Probe));
    var s4 := s3.(closer := At(id, Shut));
    assert Next(s, steps[0]) == s1;
    assert Next(s1, steps[1]) == s2;
    assert Next(s2, steps[2]) == s3;
    assert Next(s3, steps[3]) == s4;
    ExecUnfold(s, steps);
    ExecUnfold(s1, steps[1..]);
    ExecUnfold(s2, steps[2..]);
    ExecUnfold(s3, steps[3..]);
    assert Exec(s4, steps[4..]) == s4;
  }

  /** The caller has closed the channel, and the cleaner closed it again; Close was never called. */
  ghost predicate ClosedByCleanerToo(s: System, id: string) {
    s.panic == ClosedTwice && id in s.contexts && s.contexts[id].closedBy == ByCaller && !s.closing
  }

  function Cleaning(id: string): seq<Step> {
    [Pick(id, 0), Remove(id), Sweep, Sweep]
  }

  function CleanerEarly(id: string): seq<Step> {
    Waiting(id) + GivingUp(id) + Cleaning(id)
  }

  lemma {:induction false} CleanerEarlyEnters(id: string, section: Section)
    requires section != Selecting && section != Sweeping
    ensures NeverEnters(CleanerEarly(id), section)
  {
    EarlyEnters(id, Cleaning(id), section);
  }

  lemma {:induction false} CleanerSelects(id: string)
    requires id != ""
    ensures Uninterrupted(Start(), LeavingRun(CleanerEarly(id), id, Sweep), Selecting)
  {
    EarlyEnters(id, [], Selecting);
    CleanerEarlyEnds(id);
    assert NeverEnters(Leaving(id) + [Sweep], Selecting);
    SelectingKept(Waiting(id) + GivingUp(id), Cleaning(id), Leaving(id) + [Sweep]);
    assert LeavingRun(CleanerEarly(id), id, Sweep) == CleanerEarly(id) + (Leaving(id) + [Sweep]);
  }

  lemma {:induction false} CleanerEarlyEnds(id: string)
    requires id != ""
    ensures var s := Exec(Start(), CleanerEarly(id));
            && EmptyAndOpen(s, id, Deleting(ContextError)) && s.cleaner == At(id, Shut)
            && s.picked == {} && !s.closing
  {
    WaitingReached(id);
    var s := Exec(Start(), Waiting(id));
    GivesUp(s, id);
    CleanerProbes(Exec(s, GivingUp(id)), id, Cleaning(id));
    JoinRuns(Start(), Waiting(id), GivingUp(id), Cleaning(id));
  }

  lemma {:induction false} SweepPanics(s: System, id: string)
    requires EmptyAndOpen(s, id, Deleting(ContextError)) && s.cleaner == At(id, Shut) && !s.closing
    ensures ClosedByCleanerToo(Next(Exec(s, Leaving(id)), Sweep), id)
  {
    Leaves(s, id);
  }

  /** A call that has timed out is selected and removed by the cleaner, which finds the channel empty
      and open; the caller closes it, and then the cleaner. Only the cleaner's treatment of the entry
      is interrupted. */
  lemma {:induction false} CleanerDoubleCloseReachable(id: string)
    requires id != ""
    ensures exists steps ::
              Exclusive(Start(), steps, ALL - {Sweeping}) && ClosedByCleanerToo(Exec(Start(), steps), id)
  {
    var early := CleanerEarly(id);
    var steps := LeavingRun(early, id, Sweep);
    forall section | section != Selecting && section != Sweeping ensures NeverEnters(early, section) {
      CleanerEarlyEnters(id, section);
    }
    CleanerEarlyEnds(id);
    SweepPanics(Exec(Start(), early), id);
    LeavingRunEnds(early, id, Sweep);
    DeferringKept(early, id, Sweep);
    SectionKept(early, id, Sweep, Handling);
    SectionKept(early, id, Sweep, ClosingEntry);
    CleanerSelects(id);
    ExclusiveBut(Start(), steps, ALL - {Sweeping}, Sweeping);
  }

  /** A cleaner that selects and removes without a pause. */
  lemma {:induction false} SelectingKept(before: seq<Step>, cleaning: seq<Step>, after: seq<Step>)
    requires NeverEnters(before, Selecting) && NeverEnters(after, Selecting)
    requires forall i :: 0 <= i < |cleaning| ==> ActorOf(cleaning[i]) == Cleaner
    requires Exec(Start(), before + cleaning).picked == {}
    ensures Uninterrupted(Start(), before + cleaning + after, Selecting)
  {
    NotEntered(Start(), before, Selecting);
    OwnSection(Exec(Start(), before), cleaning, Selecting, Cleaner);
    UninterruptedAppend(Start(), before, cleaning, Selecting);
    NotEntered(Exec(Start(), before + cleaning), after, Selecting);
    UninterruptedAppend(Start(), before + cleaning, after, Selecting);
  }

  lemma {:induction false} CleanerProbes(s: System, id: string, steps: seq<Step>)
    requires EmptyAndOpen(s, id, Deleting(ContextError)) && id in s.registered && s.contexts[id].status == Timeout
    requires !s.closing && s.cleaner == Free && s.picked == {}
    requires steps == [Pick(id, 0), Remove(id), Sweep, Sweep]
    ensures Exec(s, steps) == s.(registered := s.registered - {id}, cleaner := At(id, Shut))
  {
    var s1 := s.(picked := {id});
    var s2 := s.(registered := s.registered - {id}, cleaner := At(id, Mark));
    var s3 := s2.(cleaner := At(id, Probe));
    var s4 := s2.(cleaner := At(id, Shut));
    assert Next(s, steps[0]) == s1;
    assert {id} - {id} == {};
    assert Next(s1, steps[1]) == s2;
    assert s.contexts[id := s.contexts[id].(status := Timeout)] == s.contexts;
    assert Next(s2, steps[2]) == s3;
    assert Next(s3, steps[3]) == s4;
    ExecUnfold(s, steps);
    ExecUnfold(s1, steps[1..]);
    ExecUnfold(s2, steps[2..]);
    ExecUnfold(s3, steps[3..]);
    assert Exec(s4, steps[4..]) == s4;
  }

  lemma JoinRuns(s: System, a: seq<Step>, b: seq<Step>, c: seq<Step>)
    ensures Exec(s, a + b + c) == Exec(Exec(Exec(s, a), b), c)
    ensures Exec(s, a + b) == Exec(Exec(s, a), b)
  {
    ExecAppend(s, a, b);
    ExecAppend(s, a + b, c);
  }

  ghost predicate NeverPanics(sections: set<Section>) {
    forall steps :: Exclusive(Start(), steps, sections) ==> Exec(Start(), steps).panic == NoPanic
  }

  /** Exactly which sections have to be uninterrupted for the client never to panic. */
  lemma {:induction false} DisciplineExactly(sections: set<Section>)
    ensures NeverPanics(sections) <==> {Handling, Sweeping, ClosingEntry} <= sections
  {
    if {Handling, Sweeping, ClosingEntry} <= sections {
      forall steps | Exclusive(Start(), steps, sections) ensures Exec(Start(), steps).panic == NoPanic {
        ChannelDiscipline(steps, "");
      }
    } else if Handling !in sections {
      PanicsWithout(sections, Handling);
    } else if Sweeping !in sections {
      PanicsWithout(sections, Sweeping);
    } else {
      PanicsWithout(sections, ClosingEntry);
    }
  }

  lemma {:induction false} PanicsWithout(sections: set<Section>, missing: Section)
    requires missing !in sections && missing in {Handling, Sweeping, ClosingEntry}
    ensures !NeverPanics(sections)
  {
    var id := "1";
    var steps;
    if missing == Handling {
      SendOnClosedReachable(id, Reply(id, map[CORRELATION_ID := id], ""));
      steps :| Exclusive(Start(), steps, ALL - {missing}) && SentAfterCallerClosed(Exec(Start(), steps), id);
    } else if missing == Sweeping {
      CleanerDoubleCloseReachable(id);
      steps :| Exclusive(Start(), steps, ALL - {missing}) && ClosedByCleanerToo(Exec(Start(), steps), id);
    } else {
      DoubleCloseReachable(id);
      steps :| Exclusive(Start(), steps, ALL - {missing}) && ClosedByBoth(Exec(Start(), steps), id);
    }
    ExclusiveBut(Start(), steps, sections, missing);
    assert Exclusive(Start(), steps, sections) && Exec(Start(), steps).panic != NoPanic;
  }
}

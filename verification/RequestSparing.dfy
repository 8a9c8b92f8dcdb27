/**
 When a cleanup pass leaves alone the calls that have sent their request and wait for a reply.
 */
module RequestSparing {
  import opened Wrappers
  import opened RequestProtocol
  import opened RequestCorrelation
  import opened RequestDiscipline
  import opened RequestInterruptions

  /** Between marking a request as sent off and the end of the wait. */
  predicate Busy(pc: Pc) {
    pc == Sending || pc == Awaiting
  }

  /** Before Close a busy call is Processing, and the cleaner has hold of none. */
  ghost predicate Spares(s: System, last: Actor) {
    && (!s.closing ==> forall id :: id in s.calls && Busy(s.calls[id].pc) ==>
                         id in s.contexts && s.contexts[id].status == Processing)
    && (forall id :: id in s.picked && id in s.calls ==> !Busy(s.calls[id].pc))
    && (s.cleaner.At? && s.cleaner.id in s.calls ==> !Busy(s.calls[s.cleaner.id].pc))
    && (s.closer.At? ==> s.closing)
    && Idle(s, last, Selecting) && Idle(s, last, Sweeping)
  }

  lemma {:induction false} CallerSpares(s: System, last: Actor, step: Step)
    requires Spares(s, last) && Enabled(s, step) && ActorOf(step).Caller?
    requires s.picked == {} && s.cleaner == Free
    ensures Spares(CallerStep(s, step), ActorOf(step))
  {
    var t, own := CallerStep(s, step), ActorOf(step).id;
    CallerRest(s, step);
    forall id | !t.closing && id in t.calls && Busy(t.calls[id].pc)
      ensures id in t.contexts && t.contexts[id].status == Processing
    {
      if id != own {
        CallerLocal(s, step, id);
      }
    }
  }

  lemma {:induction false} OtherSpares(s: System, last: Actor, step: Step)
    requires Spares(s, last) && Enabled(s, step) && (ActorOf(step) == Environment || ActorOf(step).Handler?)
    requires s.picked == {} && s.cleaner == Free
    ensures Spares(Next(s, step), ActorOf(step))
  {
    var t := Next(s, step);
    assert t.calls == s.calls && t.picked == s.picked && t.cleaner == s.cleaner && t.closing == s.closing;
    forall id | id in s.contexts ensures id in t.contexts && t.contexts[id].status == s.contexts[id].status {
    }
  }

  lemma {:induction false} CleanerSpares(s: System, last: Actor, step: Step)
    requires Spares(s, last) && Enabled(s, step) && ActorOf(step) == Cleaner
    ensures Spares(CleanerStep(s, step), Cleaner)
  {
    var t := CleanerStep(s, step);
    assert t.calls == s.calls && t.closing == s.closing && t.closer == s.closer;
    forall id | !t.closing && id in t.calls && Busy(t.calls[id].pc)
      ensures id in t.contexts && t.contexts[id].status == Processing
    {
      CleanerKeeps(s, last, step, id);
    }
  }

  /** The cleaner's next operation leaves a busy call's context and entry alone. */
  lemma {:induction false} CleanerKeeps(s: System, last: Actor, step: Step, id: string)
    requires Spares(s, last) && Enabled(s, step) && ActorOf(step) == Cleaner && !s.closing
    requires id in s.calls && Busy(s.calls[id].pc)
    ensures var t := CleanerStep(s, step);
            && id in s.contexts && s.contexts[id].status == Processing
            && id in t.contexts && t.contexts[id] == s.contexts[id] && (id in t.registered <==> id in s.registered)
  {
    if step.Sweep? {
      assert id != s.cleaner.id;
    }
  }

  lemma {:induction false} CloserSpares(s: System, last: Actor, step: Step)
    requires Spares(s, last) && Enabled(s, step) && ActorOf(step) == Closer
    requires s.picked == {} && s.cleaner == Free
    ensures Spares(CloseStep(s, step), Closer)
  {
    var t := CloseStep(s, step);
    assert t.calls == s.calls && t.picked == s.picked && t.cleaner == s.cleaner && t.closing;
  }

  lemma {:induction false} NextSpares(s: System, last: Actor, step: Step)
    requires Spares(s, last) && Enabled(s, step)
    requires Idle(s, ActorOf(step), Selecting) && Idle(s, ActorOf(step), Sweeping)
    ensures Spares(Next(s, step), ActorOf(step))
  {
    match ActorOf(step)
    case Caller(_) => CallerSpares(s, last, step);
    case Cleaner => CleanerSpares(s, last, step);
    case Closer => CloserSpares(s, last, step);
    case _ => OtherSpares(s, last, step);
  }

  lemma {:induction false} RunSpares(s: System, last: Actor, steps: seq<Step>) returns (latest: Actor)
    requires Spares(s, last) && Uninterrupted(s, steps, Selecting) && Uninterrupted(s, steps, Sweeping)
    ensures Spares(Exec(s, steps), latest)
    decreases |steps|
  {
    latest := last;
    if steps != [] {
      if Enabled(s, steps[0]) {
        NextSpares(s, last, steps[0]);
        latest := ActorOf(steps[0]);
      }
      latest := RunSpares(Next(s, steps[0]), latest, steps[1..]);
    }
  }

  /** A step of the cleaner changes the context or the map entry of a call that is sending or waiting. */
  ghost predicate Disturbs(s: System, step: Step, id: string) {
    && ActorOf(step) == Cleaner && Enabled(s, step) && !s.closing
    && id in s.calls && Busy(s.calls[id].pc) && id in s.contexts
    && var t := Next(s, step);
       !(id in t.contexts && t.contexts[id] == s.contexts[id] && (id in t.registered <==> id in s.registered))
  }

  /** Cleanup never aborts a call that has sent its request or is waiting: before Close such a call
      has status Processing, and no operation of a cleanup pass touches its context or map entry. */
  lemma {:induction false} CleanupSparesWaiting(steps: seq<Step>, step: Step, id: string)
    requires Exclusive(Start(), steps, {Selecting, Sweeping})
    ensures var s := Exec(Start(), steps);
            && !Disturbs(s, step, id)
            && (!s.closing && id in s.calls && Busy(s.calls[id].pc) ==>
                  id in s.contexts && s.contexts[id].status == Processing)
  {
    var latest := RunSpares(Start(), Environment, steps);
    var s := Exec(Start(), steps);
    if ActorOf(step) == Cleaner && Enabled(s, step) && !s.closing && id in s.calls && Busy(s.calls[id].pc) {
      CleanerKeeps(s, latest, step, id);
    }
  }

  ghost predicate NeverDisturbs(sections: set<Section>) {
    forall steps, step, id :: Exclusive(Start(), steps, sections) ==> !Disturbs(Exec(Start(), steps), step, id)
  }

  /** Exactly which sections have to be uninterrupted for cleanup to spare such calls. */
  lemma {:induction false} SparingExactly(sections: set<Section>)
    ensures NeverDisturbs(sections) <==> {Selecting, Sweeping} <= sections
  {
    if {Selecting, Sweeping} <= sections {
      forall steps, step, id | Exclusive(Start(), steps, sections)
        ensures !Disturbs(Exec(Start(), steps), step, id)
      {
        CleanupSparesWaiting(steps, step, id);
      }
    } else if Selecting !in sections {
      SelectedThenSent("1", sections);
    } else {
      RemovedThenSent("1", sections);
    }
  }

  const MUCH_LATER := GRACE + 2

  /** A call that has just begun. */
  ghost predicate Begun(s: System, id: string) {
    && CallAt(s, id, Stored) && id in s.registered
    && id in s.contexts && s.contexts[id] == Context(Pending, None, Nobody, 0, 1)
    && s == Start().(calls := s.calls, contexts := s.contexts, registered := s.registered)
  }

  function Beginning(id: string): seq<Step> {
    [Begin(id, "", "", map[], 0, 1)]
  }

  lemma {:induction false} BeginsRun(id: string)
    requires id != ""
    ensures Begun(Exec(Start(), Beginning(id)), id)
  {
    ExecUnfold(Start(), Beginning(id));
    assert Beginning(id)[1..] == [];
  }

  /** It sends its request off after the cleaner has selected it. */
  lemma {:induction false} SelectedRun(s: System, id: string)
    requires Begun(s, id)
    ensures Disturbs(Exec(s, [Pick(id, MUCH_LATER), SetProcessing(id)]), Remove(id), id)
  {
    var steps := [Pick(id, MUCH_LATER), SetProcessing(id)];
    var s1 := s.(picked := {id});
    var s2 := WithPc(WithContext(s1, id, s.contexts[id].(status := Processing)), id, Sending);
    assert Next(s, steps[0]) == s1;
    assert Next(s1, steps[1]) == s2;
    ExecUnfold(s, steps);
    ExecUnfold(s1, steps[1..]);
    assert Exec(s2, steps[2..]) == s2;
    assert id !in Next(s2, Remove(id)).registered;
  }

  lemma {:induction false} PickAndRemove(s: System, id: string)
    requires Begun(s, id)
    ensures Exec(s, [Pick(id, MUCH_LATER), Remove(id)]) ==
            s.(registered := s.registered - {id}, cleaner := At(id, Mark))
  {
    var steps := [Pick(id, MUCH_LATER), Remove(id)];
    var s1 := s.(picked := {id});
    var s2 := s.(registered := s.registered - {id}, cleaner := At(id, Mark));
    assert Next(s, steps[0]) == s1;
    assert {id} - {id} == {};
    assert Next(s1, steps[1]) == s2;
    ExecUnfold(s, steps);
    ExecUnfold(s1, steps[1..]);
    assert Exec(s2, steps[2..]) == s2;
  }

  /** It sends its request off after the cleaner has removed it. */
  lemma {:induction false} RemovedRun(s: System, id: string)
    requires s.panic == NoPanic && !s.closing && CallAt(s, id, Stored) && id in s.contexts
    requires s.cleaner == At(id, Mark)
    ensures Disturbs(Exec(s, [SetProcessing(id)]), Sweep, id)
  {
    var s1 := WithPc(WithContext(s, id, s.contexts[id].(status := Processing)), id, Sending);
    assert Next(s, SetProcessing(id)) == s1;
    ExecUnfold(s, [SetProcessing(id)]);
    assert [SetProcessing(id)][1..] == [];
    assert Next(s1, Sweep).contexts[id].status == Timeout;
  }

  /** A call that was pending for too long is selected, sends its request, and is removed. */
  lemma {:induction false} SelectedThenSent(id: string, sections: set<Section>)
    requires id != "" && Selecting !in sections
    ensures !NeverDisturbs(sections)
  {
    var rest := [Pick(id, MUCH_LATER), SetProcessing(id)];
    var steps := Beginning(id) + rest;
    BeginsRun(id);
    SelectedRun(Exec(Start(), Beginning(id)), id);
    ExecAppend(Start(), Beginning(id), rest);
    NotEntered(Start(), steps, Handling);
    NotEntered(Start(), steps, Deferring);
    NotEntered(Start(), steps, Sweeping);
    NotEntered(Start(), steps, ClosingEntry);
    ExclusiveBut(Start(), steps, sections, Selecting);
    assert Disturbs(Exec(Start(), steps), Remove(id), id);
  }

  function Removing(id: string): seq<Step> {
    [Pick(id, MUCH_LATER), Remove(id)]
  }

  function RemovedSteps(id: string): seq<Step> {
    Beginning(id) + Removing(id) + [SetProcessing(id)]
  }

  lemma {:induction false} RemovedDisturbs(id: string)
    requires id != ""
    ensures Exec(Start(), Beginning(id) + Removing(id)).picked == {}
    ensures Disturbs(Exec(Start(), RemovedSteps(id)), Sweep, id)
  {
    BeginsRun(id);
    PickAndRemove(Exec(Start(), Beginning(id)), id);
    JoinRuns(Start(), Beginning(id), Removing(id), [SetProcessing(id)]);
    RemovedRun(Exec(Start(), Beginning(id) + Removing(id)), id);
  }

  lemma {:induction false} RemovedEnters(id: string, section: Section)
    requires section != Selecting && section != Sweeping
    ensures Uninterrupted(Start(), RemovedSteps(id), section)
  {
    NeverEntersAppend(Beginning(id), Removing(id), section);
    NeverEntersAppend(Beginning(id) + Removing(id), [SetProcessing(id)], section);
    NotEntered(Start(), RemovedSteps(id), section);
  }

  /** Or it is removed, sends its request, and is marked as timed out. */
  lemma {:induction false} RemovedThenSent(id: string, sections: set<Section>)
    requires id != "" && Sweeping !in sections
    ensures !NeverDisturbs(sections)
  {
    var steps := RemovedSteps(id);
    RemovedDisturbs(id);
    RemovedEnters(id, Handling);
    RemovedEnters(id, Deferring);
    RemovedEnters(id, ClosingEntry);
    SelectingKept(Beginning(id), Removing(id), [SetProcessing(id)]);
    ExclusiveBut(Start(), steps, sections, Sweeping);
    assert Disturbs(Exec(Start(), steps), Sweep, id);
  }
}

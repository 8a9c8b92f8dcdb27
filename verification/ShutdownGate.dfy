/**
 Graceful shutdown of one client. `Gate` is the state guarded by the client's mutex and the class
 `Client` is the code that updates it. The step system below runs any number of consumer
 handlers (Subscribe, SubscribeWithAck, SubscribeWithoutAck) and of closeWithContext calls against
 one gate, each mutex-protected section and each call of the user's handler being one step.
 */
module ShutdownGate {
  /** `done` is whether processingDone is closed; closing it twice would panic. */
  datatype Gate = Gate(count: int, shutdown: bool, done: bool, panicked: bool)

  function Open(): Gate {
    Gate(0, false, false, false)
  }

  function CloseDone(g: Gate): Gate {
    if g.done then g.(panicked := true) else g.(done := true)
  }

  function Incremented(g: Gate): Gate {
    if g.shutdown then g else g.(count := g.count + 1)
  }

  function Decremented(g: Gate): Gate {
    var h := g.(count := g.count - 1);
    if h.count <= 0 && h.shutdown then CloseDone(h) else h
  }

  function ShutDown(g: Gate): Gate {
    if g.shutdown then g
    else
      var h := g.(shutdown := true);
      if h.count <= 0 then CloseDone(h) else h
  }

  datatype Verdict = ConsumeSuccess | ConsumeRetryLater

  /** What a wrapped handler answers after calling the user's handler with these outcomes. */
  function VerdictOf(withAck: bool, outcomes: seq<bool>): Verdict {
    if outcomes != [] && !outcomes[|outcomes| - 1] && withAck then ConsumeRetryLater else ConsumeSuccess
  }

  /** The user's handler was called on a prefix of `n` messages and failed at most on the last. */
  predicate UpToFirstFailure(outcomes: seq<bool>, n: nat) {
    |outcomes| <= n && forall i :: 0 <= i < |outcomes| - 1 ==> outcomes[i]
  }

  predicate Complete(outcomes: seq<bool>, n: nat) {
    UpToFirstFailure(outcomes, n) && (|outcomes| == n || (outcomes != [] && !outcomes[|outcomes| - 1]))
  }

  class Client {
    var processingCount: int
    var shutdownStarted: bool
    var processingDone: bool
    var panicked: bool

    ghost function View(): Gate
      reads this
    {
      Gate(processingCount, shutdownStarted, processingDone, panicked)
    }

    constructor ()
      ensures View() == Open()
    {
      processingCount, shutdownStarted, processingDone, panicked := 0, false, false, false;
    }

    method CloseProcessingDone()
      modifies this
      ensures View() == CloseDone(old(View()))
    {
      if processingDone {
        panicked := true;
      } else {
        processingDone := true;
      }
    }

    method IncrementProcessing() returns (admitted: bool)
      modifies this
      ensures View() == Incremented(old(View())) && admitted == !old(shutdownStarted)
      ensures processingCount == old(processingCount) + if admitted then 1 else 0
      ensures shutdownStarted == old(shutdownStarted) && processingDone == old(processingDone)
    {
      if shutdownStarted {
        return false;
      }
      processingCount := processingCount + 1;
      return true;
    }

    method DecrementProcessing()
      modifies this
      ensures View() == Decremented(old(View()))
      ensures processingCount == old(processingCount) - 1 && shutdownStarted == old(shutdownStarted)
      ensures processingDone <==> old(processingDone) || (shutdownStarted && processingCount <= 0)
    {
      processingCount := processingCount - 1;
      if processingCount <= 0 && shutdownStarted {
        CloseProcessingDone();
      }
    }

    method StartShutdown()
      modifies this
      ensures View() == ShutDown(old(View()))
      ensures shutdownStarted && processingCount == old(processingCount)
      ensures processingDone <==> old(processingDone) || (!old(shutdownStarted) && processingCount <= 0)
      ensures old(shutdownStarted) ==> View() == old(View())
    {
      if shutdownStarted {
        return;
      }
      shutdownStarted := true;
      if processingCount <= 0 {
        CloseProcessingDone();
      }
    }

    /** A wrapped handler running undisturbed on a batch, `results[i]` being whether the user's
        handler succeeds on message i. It leaves the gate as it found it. */
    method OnBatch(results: seq<bool>, withAck: bool) returns (verdict: Verdict, outcomes: seq<bool>)
      modifies this
      ensures View() == old(View())
      ensures shutdownStarted ==> outcomes == [] && verdict == ConsumeRetryLater
      ensures !shutdownStarted ==>
                outcomes <= results && Complete(outcomes, |results|) && verdict == VerdictOf(withAck, outcomes)
    {
      outcomes := [];
      if shutdownStarted {
        return ConsumeRetryLater, outcomes;
      }
      var admitted := IncrementProcessing();
      if !admitted {
        return ConsumeRetryLater, outcomes;
      }
      verdict, outcomes := HandleAll(results, withAck);
      DecrementProcessing();
    }
  }

  /** The loop over the messages of a batch, with its early exit. */
  method HandleAll(results: seq<bool>, withAck: bool) returns (verdict: Verdict, outcomes: seq<bool>)
    ensures outcomes <= results && Complete(outcomes, |results|)
    ensures verdict == VerdictOf(withAck, outcomes)
  {
    outcomes := [];
    for i := 0 to |results|
      invariant outcomes == results[..i]
      invariant forall j :: 0 <= j < i ==> outcomes[j]
    {
      outcomes := outcomes + [results[i]];
      if !results[i] {
        if withAck {
          return ConsumeRetryLater, outcomes;
        } else {
          return ConsumeSuccess, outcomes;
        }
      }
    }
    return ConsumeSuccess, outcomes;
  }

  // ---------------------------------------------------------------------------------------------
  // Handlers and closers as a step system
  // ---------------------------------------------------------------------------------------------

  datatype HandlerPc = Checked | Running | Leaving | Returned(verdict: Verdict)

  /** One call of a wrapped handler, with the messages the broker delivered to it. */
  datatype Handler = Handler(withAck: bool, batch: seq<nat>, admitted: bool, outcomes: seq<bool>, pc: HandlerPc)

  datatype CloserPc = Waiting | Drained | ProducerDown | Forcing | ProducerForced | ClosedOk | ClosedErr

  /** One call of closeWithContext: whether its context ran out while it waited, and what became of
      Shutdown on the producer and on the consumer. */
  datatype Closer = Closer(pc: CloserPc, forced: bool, producerAt: Shutdown, consumerAt: Shutdown)

  /** With how many handlers in flight Shutdown was called, and whether it succeeded. */
  datatype Shutdown = NotCalled | Called(inFlight: int, ok: bool)

  datatype System = System(
    gate: Gate,
    hasProducer: bool,
    hasConsumer: bool,
    handlers: map<nat, Handler>,
    closers: map<nat, Closer>,
    succeeded: set<nat>,    // messages on which the user's handler has returned nil
    acked: set<nat>,        // messages acknowledged by an acknowledging subscription
    leaves: nat             // decrementProcessing calls
  )

  datatype Step =
    | Arrive(h: nat, withAck: bool, batch: seq<nat>)  // the isShuttingDown check
    | Admit(h: nat)
    | Handle(h: nat, ok: bool)
    | Finish(h: nat)
    | Leave(h: nat)                                   // the deferred decrement, then the answer
    | StartGraceful                                   // StartGracefulShutdown
    | CloseBegin(c: nat)
    | CloseDrained(c: nat)
    | CloseTimeout(c: nat)
    | CloseProducer(c: nat, ok: bool)
    | CloseConsumer(c: nat, ok: bool)

  function Start(hasProducer: bool, hasConsumer: bool): System {
    System(Open(), hasProducer, hasConsumer, map[], map[], {}, {}, 0)
  }

  predicate HandlerAt(s: System, h: nat, pc: HandlerPc) {
    h in s.handlers && s.handlers[h].pc == pc
  }

  predicate CloserAt(s: System, c: nat, pc: CloserPc) {
    c in s.closers && s.closers[c].pc == pc
  }

  predicate Enabled(s: System, step: Step) {
    match step
    case Arrive(h, _, _) => h !in s.handlers
    case Admit(h) => HandlerAt(s, h, Checked)
    case Handle(h, _) => HandlerAt(s, h, Running) && |s.handlers[h].outcomes| < |s.handlers[h].batch|
    case Finish(h) => HandlerAt(s, h, Running) && |s.handlers[h].outcomes| == |s.handlers[h].batch|
    case Leave(h) => HandlerAt(s, h, Leaving)
    case StartGraceful => true
    case CloseBegin(c) => c !in s.closers
    case CloseDrained(c) => CloserAt(s, c, Waiting) && s.gate.done
    case CloseTimeout(c) => CloserAt(s, c, Waiting)
    case CloseProducer(c, _) => CloserAt(s, c, Drained) || CloserAt(s, c, Forcing)
    case CloseConsumer(c, _) => CloserAt(s, c, ProducerDown) || CloserAt(s, c, ProducerForced)
  }

  function ToSet(batch: seq<nat>): set<nat> {
    set i | 0 <= i < |batch| :: batch[i]
  }

  /** The first Shutdown call of closeWithContext. After a timeout its result is ignored. */
  function ProducerStage(s: System, a: Closer, ok: bool): Closer {
    var b := if s.hasProducer then a.(producerAt := Called(s.gate.count, ok)) else a;
    if a.pc == Forcing then b.(pc := ProducerForced)
    else b.(pc := if s.hasProducer && !ok then ClosedErr else ProducerDown)
  }

  /** The second one, and the return. After a timeout it is the context's error that is returned. */
  function ConsumerStage(s: System, a: Closer, ok: bool): Closer {
    var b := if s.hasConsumer then a.(consumerAt := Called(s.gate.count, ok)) else a;
    if a.pc == ProducerForced then b.(pc := ClosedErr)
    else b.(pc := if s.hasConsumer && !ok then ClosedErr else ClosedOk)
  }

  function Next(s: System, step: Step): System {
    if !Enabled(s, step) then s
    else
      match step
      case Arrive(h, withAck, batch) =>
        var pc := if s.gate.shutdown then Returned(ConsumeRetryLater) else Checked;
        s.(handlers := s.handlers[h := Handler(withAck, batch, false, [], pc)])
      case Admit(h) =>
        var pc := if s.gate.shutdown then Returned(ConsumeRetryLater) else Running;
        s.(gate := Incremented(s.gate),
           handlers := s.handlers[h := s.handlers[h].(admitted := !s.gate.shutdown, pc := pc)])
      case Handle(h, ok) =>
        var a := s.handlers[h];
        s.(handlers := s.handlers[h := a.(outcomes := a.outcomes + [ok], pc := if ok then Running else Leaving)],
           succeeded := if ok then s.succeeded + {a.batch[|a.outcomes|]} else s.succeeded)
      case Finish(h) =>
        s.(handlers := s.handlers[h := s.handlers[h].(pc := Leaving)])
      case Leave(h) =>
        var a := s.handlers[h];
        var verdict := VerdictOf(a.withAck, a.outcomes);
        s.(gate := Decremented(s.gate),
           leaves := s.leaves + 1,
           handlers := s.handlers[h := a.(pc := Returned(verdict))],
           acked := if a.withAck && verdict == ConsumeSuccess then s.acked + ToSet(a.batch) else s.acked)
      case StartGraceful =>
        s.(gate := ShutDown(s.gate))
      case CloseBegin(c) =>
        if !s.hasProducer && !s.hasConsumer
        then s.(closers := s.closers[c := Closer(ClosedOk, false, NotCalled, NotCalled)])
        else s.(gate := ShutDown(s.gate), closers := s.closers[c := Closer(Waiting, false, NotCalled, NotCalled)])
      case CloseDrained(c) =>
        s.(closers := s.closers[c := s.closers[c].(pc := Drained)])
      case CloseTimeout(c) =>
        s.(closers := s.closers[c := s.closers[c].(pc := Forcing, forced := true)])
      case CloseProducer(c, ok) =>
        s.(closers := s.closers[c := ProducerStage(s, s.closers[c], ok)])
      case CloseConsumer(c, ok) =>
        s.(closers := s.closers[c := ConsumerStage(s, s.closers[c], ok)])
  }

  function Exec(s: System, steps: seq<Step>): System
    decreases |steps|
  {
    if steps == [] then s else Exec(Next(s, steps[0]), steps[1..])
  }

  // ---------------------------------------------------------------------------------------------
  // A handler that runs undisturbed
  // ---------------------------------------------------------------------------------------------

  function HandleSteps(h: nat, outcomes: seq<bool>): seq<Step> {
    if outcomes == [] then [] else [Handle(h, outcomes[0])] + HandleSteps(h, outcomes[1..])
  }

  function BatchSteps(h: nat, withAck: bool, batch: seq<nat>, outcomes: seq<bool>): seq<Step> {
    [Arrive(h, withAck, batch), Admit(h)] + HandleSteps(h, outcomes) + [Finish(h), Leave(h)]
  }

  lemma {:induction false} ExecAppend(s: System, a: seq<Step>, b: seq<Step>)
    ensures Exec(s, a + b) == Exec(Exec(s, a), b)
    decreases |a|
  {
    if a == [] {
      assert a + b == b;
    } else {
      assert (a + b)[0] == a[0] && (a + b)[1..] == a[1..] + b;
      ExecAppend(Next(s, a[0]), a[1..], b);
    }
  }

  lemma ExecTwo(s: System, a: Step, b: Step)
    ensures Exec(s, [a, b]) == Next(Next(s, a), b)
  {
    assert [a, b][1..] == [b] && [b][1..] == [];
    assert Exec(Next(s, a), [b]) == Next(Next(s, a), b);
  }

  /** The calls of the user's handler, up to the first failure. */
  lemma {:induction false} HandleRun(s: System, h: nat, outcomes: seq<bool>)
    requires HandlerAt(s, h, Running)
    requires |s.handlers[h].outcomes| + |outcomes| <= |s.handlers[h].batch|
    requires forall i :: 0 <= i < |outcomes| - 1 ==> outcomes[i]
    ensures var t, a := Exec(s, HandleSteps(h, outcomes)), s.handlers[h];
            var failed := outcomes != [] && !outcomes[|outcomes| - 1];
            && t.gate == s.gate && h in t.handlers
            && t.handlers[h] == a.(outcomes := a.outcomes + outcomes, pc := if failed then Leaving else Running)
    decreases |outcomes|
  {
    var a := s.handlers[h];
    if outcomes == [] {
      assert a.outcomes + [] == a.outcomes;
    } else {
      var rest := outcomes[1..];
      var t := Next(s, Handle(h, outcomes[0]));
      assert HandleSteps(h, outcomes)[1..] == HandleSteps(h, rest);
      assert a.outcomes + outcomes == a.outcomes + [outcomes[0]] + rest;
      if rest == [] {
        assert Exec(t, HandleSteps(h, rest)) == t;
      } else {
        assert outcomes[0] && rest[|rest| - 1] == outcomes[|outcomes| - 1];
        HandleRun(t, h, rest);
      }
    }
  }

  lemma {:induction false} LeaveRun(s: System, h: nat)
    requires h in s.handlers && Complete(s.handlers[h].outcomes, |s.handlers[h].batch|)
    requires var a := s.handlers[h];
             a.pc == if a.outcomes != [] && !a.outcomes[|a.outcomes| - 1] then Leaving else Running
    ensures var t, a := Exec(s, [Finish(h), Leave(h)]), s.handlers[h];
            && t.gate == Decremented(s.gate)
            && h in t.handlers && t.handlers[h] == a.(pc := Returned(VerdictOf(a.withAck, a.outcomes)))
  {
    ExecTwo(s, Finish(h), Leave(h));
    assert HandlerAt(Next(s, Finish(h)), h, Leaving);
  }

  predicate AboutHandler(step: Step, h: nat) {
    (step.Handle? || step.Finish? || step.Leave?) && step.h == h
  }

  /** A handler that has returned takes no more steps. */
  lemma {:induction false} NothingMoves(s: System, h: nat, steps: seq<Step>)
    requires h in s.handlers && s.handlers[h].pc.Returned?
    requires forall i :: 0 <= i < |steps| ==> AboutHandler(steps[i], h)
    ensures Exec(s, steps) == s
    decreases |steps|
  {
    if steps != [] {
      assert !Enabled(s, steps[0]);
      NothingMoves(s, h, steps[1..]);
    }
  }

  lemma {:induction false} HandleStepsAbout(h: nat, outcomes: seq<bool>)
    ensures forall i :: 0 <= i < |HandleSteps(h, outcomes)| ==> AboutHandler(HandleSteps(h, outcomes)[i], h)
    decreases |outcomes|
  {
    if outcomes != [] {
      HandleStepsAbout(h, outcomes[1..]);
    }
  }

  /** The check and the admission. */
  lemma {:induction false} ArriveAndAdmit(s: System, h: nat, withAck: bool, batch: seq<nat>)
    requires h !in s.handlers
    ensures var t := Exec(s, [Arrive(h, withAck, batch), Admit(h)]);
            && t.gate == Incremented(s.gate) && h in t.handlers
            && t.handlers[h] == if s.gate.shutdown then Handler(withAck, batch, false, [], Returned(ConsumeRetryLater))
                                else Handler(withAck, batch, true, [], Running)
  {
    ExecTwo(s, Arrive(h, withAck, batch), Admit(h));
  }

  /** It does what OnBatch does: answers like it, after the same calls of the user's handler, and
      leaves the gate as it was. */
  lemma {:induction false} BatchSection(s: System, h: nat, withAck: bool, batch: seq<nat>, outcomes: seq<bool>)
    requires h !in s.handlers && Complete(outcomes, |batch|)
    ensures var t := Exec(s, BatchSteps(h, withAck, batch, outcomes));
            && t.gate == s.gate && h in t.handlers
            && t.handlers[h] ==
               if s.gate.shutdown then Handler(withAck, batch, false, [], Returned(ConsumeRetryLater))
               else Handler(withAck, batch, true, outcomes, Returned(VerdictOf(withAck, outcomes)))
  {
    var start, calls, end := [Arrive(h, withAck, batch), Admit(h)], HandleSteps(h, outcomes), [Finish(h), Leave(h)];
    ExecAppend(s, start, calls);
    ExecAppend(s, start + calls, end);
    ArriveAndAdmit(s, h, withAck, batch);
    var admitted := Exec(s, start);
    if s.gate.shutdown {
      HandleStepsAbout(h, outcomes);
      NothingMoves(admitted, h, calls);
      NothingMoves(admitted, h, end);
    } else {
      HandleRun(admitted, h, outcomes);
      assert [] + outcomes == outcomes;
      LeaveRun(Exec(admitted, calls), h);
    }
  }

  // ---------------------------------------------------------------------------------------------
  // The invariant
  // ---------------------------------------------------------------------------------------------

  predicate Busy(a: Handler) {
    a.pc == Running || a.pc == Leaving
  }

  /** Handlers that passed incrementProcessing and have not yet run their deferred decrement. */
  function InFlight(s: System): set<nat> {
    set h | h in s.handlers && Busy(s.handlers[h])
  }

  ghost predicate GateInv(s: System) {
    && s.gate.count == |InFlight(s)|
    && (s.gate.done <==> s.gate.shutdown && s.gate.count == 0)
    && !s.gate.panicked
  }

  ghost predicate HandlerInv(s: System, a: Handler) {
    && UpToFirstFailure(a.outcomes, |a.batch|)
    && (forall i :: 0 <= i < |a.outcomes| && a.outcomes[i] ==> a.batch[i] in s.succeeded)
    && (a.pc == Running ==> a.admitted && forall i :: 0 <= i < |a.outcomes| ==> a.outcomes[i])
    && (a.pc == Leaving ==> a.admitted && Complete(a.outcomes, |a.batch|))
    && (a.pc == Checked ==> !a.admitted && a.outcomes == [])
    && (a.pc.Returned? && a.admitted && a.withAck && a.pc.verdict == ConsumeSuccess ==> ToSet(a.batch) <= s.acked)
    && (a.pc.Returned? ==>
          if a.admitted then Complete(a.outcomes, |a.batch|) && a.pc.verdict == VerdictOf(a.withAck, a.outcomes)
          else a.outcomes == [] && a.pc.verdict == ConsumeRetryLater)
  }

  predicate Failed(call: Shutdown) {
    call.Called? && !call.ok
  }

  /** A Shutdown called on the part, if there is one, with nothing in flight, and successful. */
  function CleanCall(has: bool): Shutdown {
    if has then Called(0, true) else NotCalled
  }

  /** Once a closer has seen processingDone closed, every Shutdown it makes finds nothing in flight;
      when it returns nil it has made all of them and all succeeded. When it returns an error one of
      them failed, or its wait timed out and it made all of them whatever their results. */
  ghost predicate CloserInv(s: System, a: Closer) {
    && (a.forced <==> a.pc == Forcing || a.pc == ProducerForced || (a.pc == ClosedErr && a.forced))
    && (a.pc == Waiting || a.pc == Forcing || a.pc == Drained ==> a.producerAt == a.consumerAt == NotCalled)
    && (a.pc == Drained || a.pc == ProducerDown ==> s.gate.done && a.consumerAt == NotCalled)
    && (a.pc == ProducerDown ==> a.producerAt == CleanCall(s.hasProducer))
    && (a.pc == ProducerForced ==> a.consumerAt == NotCalled && (a.producerAt.Called? <==> s.hasProducer))
    && (a.pc == ClosedOk ==> a.producerAt == CleanCall(s.hasProducer) && a.consumerAt == CleanCall(s.hasConsumer))
    && (a.pc == ClosedOk && (s.hasProducer || s.hasConsumer) ==> s.gate.done)
    && (a.pc == ClosedErr && a.forced ==>
          (a.producerAt.Called? <==> s.hasProducer) && (a.consumerAt.Called? <==> s.hasConsumer))
    && (a.pc == ClosedErr && !a.forced ==>
          || (s.hasProducer && a.producerAt == Called(0, false) && a.consumerAt == NotCalled)
          || (s.hasConsumer && a.producerAt == CleanCall(s.hasProducer) && a.consumerAt == Called(0, false)))
  }

  ghost predicate Inv(s: System) {
    && GateInv(s)
    && (forall h :: h in s.handlers ==> HandlerInv(s, s.handlers[h]))
    && (forall c :: c in s.closers ==> CloserInv(s, s.closers[c]))
    && s.acked <= s.succeeded
  }

  /** Which handlers a step puts in flight or takes out of flight. */
  function InFlightAfter(s: System, step: Step): set<nat> {
    if !Enabled(s, step) then InFlight(s)
    else if step.Admit? && !s.gate.shutdown then InFlight(s) + {step.h}
    else if step.Leave? then InFlight(s) - {step.h}
    else InFlight(s)
  }

  lemma {:induction false} NextInFlight(s: System, step: Step)
    ensures InFlight(Next(s, step)) == InFlightAfter(s, step)
  {
    var t := Next(s, step);
    forall h ensures h in InFlight(t) <==> h in InFlightAfter(s, step) {
      assert h in InFlight(t) <==> h in t.handlers && Busy(t.handlers[h]);
      assert h in InFlight(s) <==> h in s.handlers && Busy(s.handlers[h]);
    }
  }

  lemma {:induction false} NextGate(s: System, step: Step)
    requires GateInv(s)
    ensures GateInv(Next(s, step)) && (s.gate.done ==> Next(s, step).gate.done)
  {
    NextInFlight(s, step);
    if Enabled(s, step) {
      assert step.Leave? ==> step.h in InFlight(s);
      assert step.Admit? ==> step.h !in InFlight(s);
    }
  }

  lemma {:induction false} SucceededGrows(s: System, step: Step, a: Handler)
    requires HandlerInv(s, a)
    ensures HandlerInv(Next(s, step), a)
  {
    assert s.succeeded <= Next(s, step).succeeded && s.acked <= Next(s, step).acked;
  }

  /** The handler a step is about, after the step. */
  lemma {:induction false} ActorKeepsInv(s: System, step: Step)
    requires Enabled(s, step)
    requires step.Arrive? || step.Admit? || step.Handle? || step.Finish? || step.Leave?
    requires !step.Arrive? ==> HandlerInv(s, s.handlers[step.h])
    ensures step.h in Next(s, step).handlers && HandlerInv(Next(s, step), Next(s, step).handlers[step.h])
  {
    if !step.Arrive? {
      SucceededGrows(s, step, s.handlers[step.h]);
    }
  }

  lemma {:induction false} NextHandlers(s: System, step: Step)
    requires Inv(s)
    ensures var t := Next(s, step);
            && (forall h :: h in t.handlers ==> HandlerInv(t, t.handlers[h]))
            && t.acked <= t.succeeded
  {
    var t := Next(s, step);
    forall h | h in t.handlers ensures HandlerInv(t, t.handlers[h]) {
      if h in s.handlers && t.handlers[h] == s.handlers[h] {
        SucceededGrows(s, step, s.handlers[h]);
      } else {
        ActorKeepsInv(s, step);
      }
    }
    if Enabled(s, step) && step.Leave? {
      assert HandlerInv(s, s.handlers[step.h]);
    }
  }

  /** A closer that does not move keeps its invariant while processingDone stays closed. */
  lemma {:induction false} CloserFrame(s: System, t: System, a: Closer)
    requires CloserInv(s, a) && t.hasProducer == s.hasProducer && t.hasConsumer == s.hasConsumer
    requires s.gate.done ==> t.gate.done
    ensures CloserInv(t, a)
  {
  }

  predicate MovesCloser(step: Step) {
    step.CloseBegin? || step.CloseDrained? || step.CloseTimeout? || step.CloseProducer? || step.CloseConsumer?
  }

  /** The closer a step is about, after the step. */
  lemma {:induction false} CloserKeepsInv(s: System, step: Step)
    requires Enabled(s, step) && MovesCloser(step)
    requires !step.CloseBegin? ==> CloserInv(s, s.closers[step.c])
    requires s.gate.done ==> s.gate.count == 0
    ensures step.c in Next(s, step).closers && CloserInv(Next(s, step), Next(s, step).closers[step.c])
  {
  }

  lemma {:induction false} NextParts(s: System, step: Step)
    ensures Next(s, step).hasProducer == s.hasProducer && Next(s, step).hasConsumer == s.hasConsumer
  {
  }

  lemma {:induction false} OtherClosers(s: System, step: Step, c: nat)
    requires c in Next(s, step).closers && !(Enabled(s, step) && MovesCloser(step) && step.c == c)
    ensures c in s.closers && Next(s, step).closers[c] == s.closers[c]
  {
  }

  lemma {:induction false} NextClosers(s: System, step: Step)
    requires Inv(s)
    ensures forall c :: c in Next(s, step).closers ==> CloserInv(Next(s, step), Next(s, step).closers[c])
  {
    var t := Next(s, step);
    NextGate(s, step);
    NextParts(s, step);
    forall c | c in t.closers ensures CloserInv(t, t.closers[c]) {
      if Enabled(s, step) && MovesCloser(step) && step.c == c {
        CloserKeepsInv(s, step);
      } else {
        OtherClosers(s, step, c);
        CloserFrame(s, t, s.closers[c]);
      }
    }
  }

  lemma {:induction false} NextInv(s: System, step: Step)
    requires Inv(s)
    ensures Inv(Next(s, step))
  {
    NextGate(s, step);
    NextHandlers(s, step);
    NextClosers(s, step);
  }

  lemma {:induction false} RunInv(s: System, steps: seq<Step>)
    requires Inv(s)
    ensures Inv(Exec(s, steps)) && (s.gate.done ==> Exec(s, steps).gate.done)
    decreases |steps|
  {
    if steps != [] {
      NextInv(s, steps[0]);
      NextGate(s, steps[0]);
      RunInv(Next(s, steps[0]), steps[1..]);
    }
  }

  // ---------------------------------------------------------------------------------------------
  // What runs promise
  // ---------------------------------------------------------------------------------------------

  /** The gate in every reachable state: the counter is the number of admitted, unfinished handlers,
      processingDone is closed exactly when shutdown has started and the counter is zero, and it is
      never closed a second time. */
  lemma {:induction false} GateSafety(hasProducer: bool, hasConsumer: bool, steps: seq<Step>)
    ensures GateInv(Exec(Start(hasProducer, hasConsumer), steps))
  {
    assert InFlight(Start(hasProducer, hasConsumer)) == {};
    RunInv(Start(hasProducer, hasConsumer), steps);
  }

  /** Once waitForProcessingComplete can return nil, no handler is between admission and decrement,
      then or in any later state. */
  lemma {:induction false} DrainedForever(hasProducer: bool, hasConsumer: bool, before: seq<Step>, after: seq<Step>)
    requires Exec(Start(hasProducer, hasConsumer), before).gate.done
    ensures InFlight(Exec(Exec(Start(hasProducer, hasConsumer), before), after)) == {}
  {
    assert InFlight(Start(hasProducer, hasConsumer)) == {};
    RunInv(Start(hasProducer, hasConsumer), before);
    RunInv(Exec(Start(hasProducer, hasConsumer), before), after);
  }

  lemma {:induction false} NextCountsDown(s: System, step: Step)
    requires s.gate.shutdown
    ensures var t := Next(s, step);
            t.gate.shutdown && t.leaves >= s.leaves && t.gate.count + t.leaves == s.gate.count + s.leaves
  {
  }

  lemma {:induction false} LeavesCountDown(s: System, steps: seq<Step>)
    requires s.gate.shutdown
    ensures var t := Exec(s, steps);
            t.gate.shutdown && t.leaves >= s.leaves && t.gate.count + t.leaves == s.gate.count + s.leaves
    decreases |steps|
  {
    if steps != [] {
      NextCountsDown(s, steps[0]);
      LeavesCountDown(Next(s, steps[0]), steps[1..]);
    }
  }

  /** From a state where shutdown has started, processingDone is closed exactly when as many handlers
      have left as were in flight in that state: nobody else is admitted. */
  lemma {:induction false} DrainEndsAfterCountLeaves(s: System, steps: seq<Step>)
    requires Inv(s) && s.gate.shutdown
    ensures var t := Exec(s, steps);
            && t.leaves - s.leaves <= |InFlight(s)|
            && (t.gate.done <==> t.leaves - s.leaves == |InFlight(s)|)
  {
    RunInv(s, steps);
    LeavesCountDown(s, steps);
  }

  /** Drain before disconnect: a closeWithContext that returned nil on a client with a producer or a
      consumer called Shutdown on each it has, and each call found no handler in flight. */
  lemma {:induction false} DrainBeforeDisconnect(hasProducer: bool, hasConsumer: bool, steps: seq<Step>, c: nat)
    requires hasProducer || hasConsumer
    requires CloserAt(Exec(Start(hasProducer, hasConsumer), steps), c, ClosedOk)
    ensures var t := Exec(Start(hasProducer, hasConsumer), steps);
            && t.closers[c].producerAt == (if hasProducer then Called(0, true) else NotCalled)
            && t.closers[c].consumerAt == (if hasConsumer then Called(0, true) else NotCalled)
            && InFlight(t) == {}
  {
    assert InFlight(Start(hasProducer, hasConsumer)) == {};
    RunInv(Start(hasProducer, hasConsumer), steps);
    RunKeepsParts(Start(hasProducer, hasConsumer), steps);
  }

  /** How closeWithContext ends: with an error exactly if its wait timed out or a Shutdown it made
      failed. After a timeout it makes every Shutdown call there is to make; otherwise it makes them
      one after the other up to the first failure, each with nothing in flight. */
  lemma {:induction false} CloseOutcome(hasProducer: bool, hasConsumer: bool, steps: seq<Step>, c: nat)
    requires var t := Exec(Start(hasProducer, hasConsumer), steps);
             CloserAt(t, c, ClosedOk) || CloserAt(t, c, ClosedErr)
    ensures var a := Exec(Start(hasProducer, hasConsumer), steps).closers[c];
            && (a.pc == ClosedErr <==> a.forced || Failed(a.producerAt) || Failed(a.consumerAt))
            && (a.producerAt.Called? <==> hasProducer)
            && (a.consumerAt.Called? <==> hasConsumer && (a.forced || !Failed(a.producerAt)))
            && (!a.forced && a.producerAt.Called? ==> a.producerAt.inFlight == 0)
            && (!a.forced && a.consumerAt.Called? ==> a.consumerAt.inFlight == 0)
  {
    assert InFlight(Start(hasProducer, hasConsumer)) == {};
    RunInv(Start(hasProducer, hasConsumer), steps);
    RunKeepsParts(Start(hasProducer, hasConsumer), steps);
    var t := Exec(Start(hasProducer, hasConsumer), steps);
    assert CloserInv(t, t.closers[c]);
  }

  /** The steps that run startShutdown. */
  predicate StartsShutdown(s: System, step: Step) {
    step.StartGraceful? || (step.CloseBegin? && Enabled(s, step) && (s.hasProducer || s.hasConsumer))
  }

  lemma {:induction false} ShutdownStays(s: System, steps: seq<Step>)
    requires s.gate.shutdown
    ensures Exec(s, steps).gate.shutdown
    decreases |steps|
  {
    if steps != [] {
      ShutdownStays(Next(s, steps[0]), steps[1..]);
    }
  }

  lemma {:induction false} TurnedAway(t: System)
    requires t.gate.shutdown
    ensures forall h, withAck, batch :: Enabled(t, Arrive(h, withAck, batch)) ==>
              var u := Next(t, Arrive(h, withAck, batch));
              u.gate == t.gate && HandlerAt(u, h, Returned(ConsumeRetryLater))
    ensures forall h :: HandlerAt(t, h, Checked) ==>
              var u := Next(t, Admit(h));
              u.gate == t.gate && HandlerAt(u, h, Returned(ConsumeRetryLater))
  {
  }

  /** Shutdown takes effect, for good: from the moment it is started, processingDone is closed exactly
      when no handler is in flight, so exactly then a closer's wait can succeed; and whoever has not
      been admitted yet is turned away without touching the count. */
  lemma {:induction false} ShutdownTakesEffect(hasProducer: bool, hasConsumer: bool,
                                               before: seq<Step>, step: Step, after: seq<Step>)
    requires StartsShutdown(Exec(Start(hasProducer, hasConsumer), before), step)
    ensures var s := Exec(Start(hasProducer, hasConsumer), before);
            var t := Exec(Next(s, step), after);
            && (step.CloseBegin? ==> CloserAt(Next(s, step), step.c, Waiting))
            && t.gate.shutdown && (t.gate.done <==> InFlight(t) == {})
            && (forall c :: CloserAt(t, c, Waiting) ==> (Enabled(t, CloseDrained(c)) <==> InFlight(t) == {}))
            && (forall h, withAck, batch :: Enabled(t, Arrive(h, withAck, batch)) ==>
                  var u := Next(t, Arrive(h, withAck, batch));
                  u.gate == t.gate && HandlerAt(u, h, Returned(ConsumeRetryLater)))
            && (forall h :: HandlerAt(t, h, Checked) ==>
                  var u := Next(t, Admit(h));
                  u.gate == t.gate && HandlerAt(u, h, Returned(ConsumeRetryLater)))
  {
    assert InFlight(Start(hasProducer, hasConsumer)) == {};
    RunInv(Start(hasProducer, hasConsumer), before);
    var s := Exec(Start(hasProducer, hasConsumer), before);
    NextInv(s, step);
    RunInv(Next(s, step), after);
    ShutdownStays(Next(s, step), after);
    var t := Exec(Next(s, step), after);
    assert InFlight(t) == {} <==> |InFlight(t)| == 0;
    TurnedAway(t);
  }

  lemma {:induction false} RunKeepsParts(s: System, steps: seq<Step>)
    ensures Exec(s, steps).hasProducer == s.hasProducer && Exec(s, steps).hasConsumer == s.hasConsumer
    decreases |steps|
  {
    if steps != [] {
      RunKeepsParts(Next(s, steps[0]), steps[1..]);
    }
  }

  /** Acknowledgement soundness, over runs with any redelivery: acknowledged messages are ones the
      user's handler succeeded on; a handler turned away at shutdown answers RetryLater; an admitted
      one called the user's handler on exactly the messages up to the first failure and answers
      Success without acknowledgement mode, and with it exactly when all succeeded. */
  lemma {:induction false} AckSoundness(hasProducer: bool, hasConsumer: bool, steps: seq<Step>, h: nat)
    requires h in Exec(Start(hasProducer, hasConsumer), steps).handlers
    requires Exec(Start(hasProducer, hasConsumer), steps).handlers[h].pc.Returned?
    ensures var t := Exec(Start(hasProducer, hasConsumer), steps);
            var a := t.handlers[h];
            && t.acked <= t.succeeded
            && (a.admitted && a.withAck && a.pc.verdict == ConsumeSuccess ==> ToSet(a.batch) <= t.acked)
            && (!a.admitted ==> a.pc.verdict == ConsumeRetryLater && a.outcomes == [])
            && (a.admitted ==> Complete(a.outcomes, |a.batch|))
            && (a.admitted && !a.withAck ==> a.pc.verdict == ConsumeSuccess)
            && (a.admitted && a.withAck ==>
                  (a.pc.verdict == ConsumeSuccess <==>
                     |a.outcomes| == |a.batch| && forall i :: 0 <= i < |a.batch| ==> a.outcomes[i]))
  {
    assert InFlight(Start(hasProducer, hasConsumer)) == {};
    RunInv(Start(hasProducer, hasConsumer), steps);
    var t := Exec(Start(hasProducer, hasConsumer), steps);
    assert HandlerInv(t, t.handlers[h]);
  }
}

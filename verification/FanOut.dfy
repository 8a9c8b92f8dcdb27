/**
 GracefulShutdown: one goroutine per registered client runs closeWithContext (closer 0 of that
 client's system), reports an error on errCh, whose capacity is the number of clients, and calls
 wg.Done; the caller waits for the join, its context or the first error, whichever select takes.
 */
module FanOut {
  import Gate = ShutdownGate

  datatype Caller = Selecting | ReturnedNil | ReturnedError | ReturnedCanceled

  datatype System = System(
    clients: seq<Gate.System>,   // the clients being closed
    finished: set<nat>,          // goroutines that have called wg.Done
    failed: set<nat>,            // goroutines that have put an error on errCh
    errCh: nat,                  // errors buffered on errCh
    joined: bool,                // the done channel is closed
    registered: nat,             // size of the client map
    caller: Caller
  )

  datatype Step =
    | Inside(i: nat, step: Gate.Step)   // anything the i-th client does, its closer included
    | ReportError(i: nat)
    | FinishOk(i: nat)
    | Join
    | SelectDone
    | SelectError
    | SelectCanceled

  function Start(clients: seq<Gate.System>): System {
    System(clients, {}, {}, 0, false, |clients|, Selecting)
  }

  /** The goroutine's closeWithContext has returned an error that is not yet on errCh. */
  predicate WantsToReport(s: System, i: nat) {
    i < |s.clients| && i !in s.finished && Gate.CloserAt(s.clients[i], 0, Gate.ClosedErr)
  }

  predicate Enabled(s: System, step: Step) {
    match step
    case Inside(i, _) => i < |s.clients|
    case ReportError(i) => WantsToReport(s, i) && s.errCh < |s.clients|
    case FinishOk(i) => i < |s.clients| && i !in s.finished && Gate.CloserAt(s.clients[i], 0, Gate.ClosedOk)
    case Join => forall i :: 0 <= i < |s.clients| ==> i in s.finished
    case SelectDone => s.caller == Selecting && s.joined
    case SelectError => s.caller == Selecting && s.errCh > 0
    case SelectCanceled => s.caller == Selecting
  }

  function Next(s: System, step: Step): System {
    if !Enabled(s, step) then s
    else
      match step
      case Inside(i, inner) => s.(clients := s.clients[i := Gate.Next(s.clients[i], inner)])
      case ReportError(i) => s.(finished := s.finished + {i}, failed := s.failed + {i}, errCh := s.errCh + 1)
      case FinishOk(i) => s.(finished := s.finished + {i})
      case Join => s.(joined := true)
      case SelectDone => s.(registered := 0, caller := ReturnedNil)
      case SelectError => s.(errCh := s.errCh - 1, caller := ReturnedError)
      case SelectCanceled => s.(caller := ReturnedCanceled)
  }

  function Exec(s: System, steps: seq<Step>): System
    decreases |steps|
  {
    if steps == [] then s else Exec(Next(s, steps[0]), steps[1..])
  }

  ghost predicate GatesInv(clients: seq<Gate.System>) {
    forall i :: 0 <= i < |clients| ==> Gate.Inv(clients[i])
  }

  /** A finished goroutine's closeWithContext has returned, with an error exactly if it failed. */
  predicate Settled(s: System, i: nat) {
    i < |s.clients| && Gate.CloserAt(s.clients[i], 0, if i in s.failed then Gate.ClosedErr else Gate.ClosedOk)
  }

  ghost predicate Inv(s: System) {
    && GatesInv(s.clients)
    && (forall i :: i in s.finished ==> Settled(s, i))
    && s.failed <= s.finished
    && s.errCh + (if s.caller == ReturnedError then 1 else 0) == |s.failed|
    && (s.joined ==> forall i :: 0 <= i < |s.clients| ==> i in s.finished)
    && (s.caller == ReturnedNil ==> s.joined)
    && s.registered == if s.caller == ReturnedNil then 0 else |s.clients|
  }

  /** A closeWithContext call that has returned stays as it returned. */
  lemma ClosedStays(g: Gate.System, step: Gate.Step, pc: Gate.CloserPc)
    requires pc == Gate.ClosedOk || pc == Gate.ClosedErr
    requires Gate.CloserAt(g, 0, pc)
    ensures Gate.CloserAt(Gate.Next(g, step), 0, pc)
  {
  }

  lemma {:induction false} InsideInv(s: System, i: nat, inner: Gate.Step)
    requires Inv(s) && i < |s.clients|
    ensures Inv(s.(clients := s.clients[i := Gate.Next(s.clients[i], inner)]))
  {
    var t := s.(clients := s.clients[i := Gate.Next(s.clients[i], inner)]);
    assert GatesInv(t.clients) by {
      Gate.NextInv(s.clients[i], inner);
    }
    forall j | j in s.finished ensures Settled(t, j) {
      assert Settled(s, j);
      if j == i {
        ClosedStays(s.clients[i], inner, if i in s.failed then Gate.ClosedErr else Gate.ClosedOk);
      }
    }
  }

  lemma {:induction false} ReportInv(s: System, i: nat)
    requires Inv(s) && Enabled(s, ReportError(i))
    ensures Inv(Next(s, ReportError(i)))
  {
    var t := Next(s, ReportError(i));
    forall j | j in t.finished ensures Settled(t, j) {
      assert j != i ==> Settled(s, j);
    }
    assert t.clients == s.clients && |t.failed| == |s.failed| + 1;
  }

  lemma {:induction false} FinishInv(s: System, i: nat)
    requires Inv(s) && Enabled(s, FinishOk(i))
    ensures Inv(Next(s, FinishOk(i)))
  {
    var t := Next(s, FinishOk(i));
    forall j | j in t.finished ensures Settled(t, j) {
      assert j != i ==> Settled(s, j);
    }
  }

  /** The steps of the caller and of the joining goroutine. */
  lemma {:induction false} CallerInv(s: System, step: Step)
    requires Inv(s) && Enabled(s, step)
    requires step.Join? || step.SelectDone? || step.SelectError? || step.SelectCanceled?
    ensures Inv(Next(s, step))
  {
    var t := Next(s, step);
    forall j | j in t.finished ensures Settled(t, j) {
      assert Settled(s, j);
    }
  }

  lemma {:induction false} NextInv(s: System, step: Step)
    requires Inv(s)
    ensures Inv(Next(s, step))
  {
    if Enabled(s, step) {
      match step
      case Inside(i, inner) => InsideInv(s, i, inner);
      case ReportError(i) => ReportInv(s, i);
      case FinishOk(i) => FinishInv(s, i);
      case _ => CallerInv(s, step);
    }
  }

  lemma {:induction false} RunInv(s: System, steps: seq<Step>)
    requires Inv(s)
    ensures Inv(Exec(s, steps))
    decreases |steps|
  {
    if steps != [] {
      NextInv(s, steps[0]);
      RunInv(Next(s, steps[0]), steps[1..]);
    }
  }

  lemma {:induction false} BoundedCard(xs: set<nat>, n: nat)
    requires forall x :: x in xs ==> x < n
    ensures |xs| <= n
    decreases n
  {
    if n > 0 {
      BoundedCard(xs - {n - 1}, n - 1);
    } else {
      assert xs == {};
    }
  }

  lemma {:induction false} ErrChHasRoom(s: System, i: nat)
    requires Inv(s) && WantsToReport(s, i)
    ensures s.errCh < |s.clients|
  {
    forall j | j in s.failed + {i} ensures j < |s.clients| {
      assert j != i ==> Settled(s, j);
    }
    assert i !in s.failed;
    BoundedCard(s.failed + {i}, |s.clients|);
  }

  /** No goroutine ever blocks on errCh, for any number of clients and whether or not the caller has
      already returned. */
  lemma {:induction false} NeverBlocksOnErrCh(clients: seq<Gate.System>, steps: seq<Step>, i: nat)
    requires forall j :: 0 <= j < |clients| ==> Gate.Inv(clients[j])
    ensures var s := Exec(Start(clients), steps);
            WantsToReport(s, i) ==> Enabled(s, ReportError(i))
  {
    RunInv(Start(clients), steps);
    var s := Exec(Start(clients), steps);
    if WantsToReport(s, i) {
      ErrChHasRoom(s, i);
    }
  }

  /** The client map is emptied only by a nil return, and then every goroutine has finished. */
  lemma {:induction false} MapKeptUntilJoined(clients: seq<Gate.System>, steps: seq<Step>)
    requires forall j :: 0 <= j < |clients| ==> Gate.Inv(clients[j])
    ensures var s := Exec(Start(clients), steps);
            && (s.registered == if s.caller == ReturnedNil then 0 else |s.clients|)
            && (s.registered < |s.clients| ==> forall i :: 0 <= i < |s.clients| ==> i in s.finished)
  {
    RunInv(Start(clients), steps);
  }

  lemma {:induction false} SuccessDrained(g: Gate.System)
    requires Gate.Inv(g) && Gate.CloserAt(g, 0, Gate.ClosedOk) && (g.hasProducer || g.hasConsumer)
    ensures Gate.InFlight(g) == {}
    ensures g.closers[0].producerAt == if g.hasProducer then Gate.Called(0, true) else Gate.NotCalled
    ensures g.closers[0].consumerAt == if g.hasConsumer then Gate.Called(0, true) else Gate.NotCalled
  {
    assert Gate.CloserInv(g, g.closers[0]);
  }

  /** What closeWithContext's success implies for a client. */
  ghost predicate DrainedIfOk(s: System, i: nat)
    requires i < |s.clients|
  {
    var g := s.clients[i];
    && 0 in g.closers
    && (i !in s.failed && (g.hasProducer || g.hasConsumer) ==>
          && Gate.InFlight(g) == {}
          && g.closers[0].producerAt == (if g.hasProducer then Gate.Called(0, true) else Gate.NotCalled)
          && g.closers[0].consumerAt == (if g.hasConsumer then Gate.Called(0, true) else Gate.NotCalled))
  }

  lemma {:induction false} JoinedMeans(s: System, i: nat)
    requires Inv(s) && s.joined && i < |s.clients|
    ensures i in s.finished && Settled(s, i) && DrainedIfOk(s, i)
  {
    var g := s.clients[i];
    assert i in s.finished;
    assert Settled(s, i);
    assert Gate.Inv(g);
    if i !in s.failed && (g.hasProducer || g.hasConsumer) {
      SuccessDrained(g);
    }
  }

  /** What nil means: every goroutine has finished and the client map is empty; every client whose
      closeWithContext succeeded is drained and was disconnected with nothing in flight; and the
      errors left unread on errCh are those of the clients that failed. */
  lemma {:induction false} NilMeansAllFinished(clients: seq<Gate.System>, steps: seq<Step>)
    requires forall j :: 0 <= j < |clients| ==> Gate.Inv(clients[j])
    requires Exec(Start(clients), steps).caller == ReturnedNil
    ensures var s := Exec(Start(clients), steps);
            && s.registered == 0 && s.errCh == |s.failed|
            && (forall i :: 0 <= i < |s.clients| ==> i in s.finished && DrainedIfOk(s, i))
            && (s.errCh == 0 <==>
                  forall i :: 0 <= i < |s.clients| ==> Gate.CloserAt(s.clients[i], 0, Gate.ClosedOk))
  {
    RunInv(Start(clients), steps);
    var s := Exec(Start(clients), steps);
    forall i | 0 <= i < |s.clients| ensures i in s.finished && Settled(s, i) && DrainedIfOk(s, i) {
      JoinedMeans(s, i);
    }
    if s.errCh > 0 {
      assert s.failed != {};
      var i :| i in s.failed;
      assert Settled(s, i);
    } else {
      assert s.failed == {};
      forall i | 0 <= i < |s.clients| ensures Gate.CloserAt(s.clients[i], 0, Gate.ClosedOk) {
        assert Settled(s, i);
      }
    }
  }

  // ---------------------------------------------------------------------------------------------
  // When nil can hide a failure
  // ---------------------------------------------------------------------------------------------

  /** A client without producer and consumer, which closeWithContext returns from at once. */
  predicate NothingToClose(g: Gate.System) {
    !g.hasProducer && !g.hasConsumer
  }

  predicate NeverFails(g: Gate.System) {
    NothingToClose(g) && (0 in g.closers ==> g.closers[0].pc == Gate.ClosedOk)
  }

  /** Only clients with something to close have failed. */
  ghost predicate FailInv(clients: seq<Gate.System>, s: System) {
    && |s.clients| == |clients|
    && (forall i :: 0 <= i < |clients| && NothingToClose(clients[i]) ==> NeverFails(s.clients[i]))
    && (forall i :: i in s.failed ==> i < |clients| && Gate.CloserAt(s.clients[i], 0, Gate.ClosedErr))
  }

  lemma NeverFailsStays(g: Gate.System, step: Gate.Step)
    requires NeverFails(g)
    ensures NeverFails(Gate.Next(g, step))
  {
  }

  lemma {:induction false} RunFailInv(clients: seq<Gate.System>, s: System, steps: seq<Step>)
    requires FailInv(clients, s)
    ensures FailInv(clients, Exec(s, steps))
    decreases |steps|
  {
    if steps != [] {
      var step := steps[0];
      if step.Inside? && step.i < |clients| {
        var g, i := s.clients[step.i], step.i;
        if NeverFails(g) {
          NeverFailsStays(g, step.step);
        }
        if i in s.failed {
          ClosedStays(g, step.step, Gate.ClosedErr);
        }
      }
      RunFailInv(clients, Next(s, step), steps[1..]);
    }
  }

  lemma {:induction false} ExecAppend(s: System, a: seq<Step>, b: seq<Step>)
    ensures Exec(s, a + b) == Exec(Exec(s, a), b)
    decreases |a|
  {
    if a == [] {
      assert a + b == b;
    } else {
      assert (a + b)[0] == a[0] && (a + b)[1..] == a[1..] + b;
      ExecAppend(Next(s, a[0]), a[1..], b);
    }
  }

  lemma ExecUnfold(s: System, step: Step, rest: seq<Step>)
    ensures Exec(s, [step] + rest) == Exec(Next(s, step), rest)
  {
    assert ([step] + rest)[1..] == rest;
  }

  /** The first n goroutines have finished, those with something to close by reporting an error, and
      the others have not started. */
  ghost predicate ClosedUpTo(clients: seq<Gate.System>, n: nat, s: System) {
    && n <= |clients| == |s.clients| && s.clients[n..] == clients[n..]
    && (forall i :: i in s.finished <==> 0 <= i < n)
    && (forall i :: i in s.failed <==> 0 <= i < n && !NothingToClose(clients[i]))
    && s.errCh <= n && s.caller == Selecting
  }

  /** The steps of a goroutine whose client does not drain in time. */
  function TimedOutClose(g: Gate.System, i: nat): seq<Step> {
    if NothingToClose(g) then [Inside(i, Gate.CloseBegin(0))] + ([FinishOk(i)] + [])
    else
      [Inside(i, Gate.CloseBegin(0))] + ([Inside(i, Gate.CloseTimeout(0))]
      + ([Inside(i, Gate.CloseProducer(0, true))]
      + ([Inside(i, Gate.CloseConsumer(0, true))] + ([ReportError(i)] + []))))
  }

  lemma {:induction false} InsideStep(s: System, i: nat, inner: Gate.Step, rest: seq<Step>)
    requires i < |s.clients|
    ensures Exec(s, [Inside(i, inner)] + rest)
            == Exec(s.(clients := s.clients[i := Gate.Next(s.clients[i], inner)]), rest)
  {
    ExecUnfold(s, Inside(i, inner), rest);
  }

  /** What a client has become after these steps. */
  function TimedOut(g: Gate.System): Gate.System {
    Gate.Next(Gate.Next(Gate.Next(Gate.Next(g, Gate.CloseBegin(0)), Gate.CloseTimeout(0)),
                        Gate.CloseProducer(0, true)), Gate.CloseConsumer(0, true))
  }

  lemma {:induction false} GateTimesOut(g: Gate.System)
    requires 0 !in g.closers && !NothingToClose(g)
    ensures Gate.CloserAt(TimedOut(g), 0, Gate.ClosedErr)
  {
    var g1 := Gate.Next(g, Gate.CloseBegin(0));
    assert Gate.CloserAt(g1, 0, Gate.Waiting);
    WaitTimesOut(g1);
    ForcedCloses(Gate.Next(g1, Gate.CloseTimeout(0)));
  }

  lemma WaitTimesOut(g: Gate.System)
    requires Gate.CloserAt(g, 0, Gate.Waiting)
    ensures Gate.CloserAt(Gate.Next(g, Gate.CloseTimeout(0)), 0, Gate.Forcing)
  {
  }

  lemma {:induction false} ForcedCloses(g: Gate.System)
    requires Gate.CloserAt(g, 0, Gate.Forcing)
    ensures Gate.CloserAt(Gate.Next(Gate.Next(g, Gate.CloseProducer(0, true)), Gate.CloseConsumer(0, true)),
                          0, Gate.ClosedErr)
  {
    assert Gate.CloserAt(Gate.Next(g, Gate.CloseProducer(0, true)), 0, Gate.ProducerForced);
  }

  lemma {:induction false} TimedOutRun(s: System, i: nat)
    requires i < |s.clients| && !NothingToClose(s.clients[i])
    ensures Exec(s, TimedOutClose(s.clients[i], i)) ==
            Next(s.(clients := s.clients[i := TimedOut(s.clients[i])]), ReportError(i))
  {
    var g := s.clients[i];
    var g1 := Gate.Next(g, Gate.CloseBegin(0));
    var g2 := Gate.Next(g1, Gate.CloseTimeout(0));
    var g3 := Gate.Next(g2, Gate.CloseProducer(0, true));
    var s1 := s.(clients := s.clients[i := g1]);
    var s2 := s.(clients := s.clients[i := g2]);
    var s3 := s.(clients := s.clients[i := g3]);
    var s4 := s.(clients := s.clients[i := TimedOut(g)]);
    assert s2 == s1.(clients := s1.clients[i := g2]) && s3 == s2.(clients := s2.clients[i := g3]);
    assert s4 == s3.(clients := s3.clients[i := TimedOut(g)]);
    var tail3 := [ReportError(i)] + [];
    var tail2 := [Inside(i, Gate.CloseConsumer(0, true))] + tail3;
    var tail1 := [Inside(i, Gate.CloseProducer(0, true))] + tail2;
    InsideStep(s, i, Gate.CloseBegin(0), [Inside(i, Gate.CloseTimeout(0))] + tail1);
    InsideStep(s1, i, Gate.CloseTimeout(0), tail1);
    InsideStep(s2, i, Gate.CloseProducer(0, true), tail2);
    InsideStep(s3, i, Gate.CloseConsumer(0, true), tail3);
    ExecUnfold(s4, ReportError(i), []);
  }

  lemma {:induction false} CloseOne(clients: seq<Gate.System>, n: nat, s: System)
    requires n < |clients| && ClosedUpTo(clients, n, s) && 0 !in clients[n].closers
    ensures ClosedUpTo(clients, n + 1, Exec(s, TimedOutClose(clients[n], n)))
  {
    var g := clients[n];
    assert s.clients[n] == s.clients[n..][0] == g;
    if NothingToClose(g) {
      var g1 := Gate.Next(g, Gate.CloseBegin(0));
      InsideStep(s, n, Gate.CloseBegin(0), [FinishOk(n)] + []);
      var s1 := s.(clients := s.clients[n := g1]);
      assert Gate.CloserAt(g1, 0, Gate.ClosedOk);
      ExecUnfold(s1, FinishOk(n), []);
    } else {
      TimedOutRun(s, n);
      GateTimesOut(g);
    }
  }

  lemma {:induction false} CloseAll(clients: seq<Gate.System>, n: nat) returns (steps: seq<Step>)
    requires n <= |clients| && forall i :: 0 <= i < |clients| ==> 0 !in clients[i].closers
    ensures ClosedUpTo(clients, n, Exec(Start(clients), steps))
  {
    if n == 0 {
      steps := [];
    } else {
      var before := CloseAll(clients, n - 1);
      var s := Exec(Start(clients), before);
      steps := before + TimedOutClose(clients[n - 1], n - 1);
      CloseOne(clients, n - 1, s);
      ExecAppend(Start(clients), before, TimedOutClose(clients[n - 1], n - 1));
    }
  }

  ghost predicate NilDespite(clients: seq<Gate.System>, steps: seq<Step>) {
    var s := Exec(Start(clients), steps);
    s.caller == ReturnedNil && s.failed != {}
  }

  /** nil does not mean success: when the join and an error are both ready, select may take the join.
      For any clients, a run that returns nil although one of them failed to close exists exactly
      when some client has a producer or a consumer, as every registered client has. */
  lemma {:induction false} NilDespiteFailure(clients: seq<Gate.System>)
    requires forall i :: 0 <= i < |clients| ==> 0 !in clients[i].closers
    ensures (exists steps :: NilDespite(clients, steps)) <==>
            exists i :: 0 <= i < |clients| && (clients[i].hasProducer || clients[i].hasConsumer)
  {
    forall steps | NilDespite(clients, steps)
      ensures exists i :: 0 <= i < |clients| && (clients[i].hasProducer || clients[i].hasConsumer)
    {
      RunFailInv(clients, Start(clients), steps);
      var s := Exec(Start(clients), steps);
      var i :| i in s.failed;
      assert !NeverFails(s.clients[i]) && !NothingToClose(clients[i]);
    }
    if i: nat :| i < |clients| && (clients[i].hasProducer || clients[i].hasConsumer) {
      var closing := CloseAll(clients, |clients|);
      var s := Exec(Start(clients), closing);
      assert i in s.failed;
      var t := Next(Next(s, Join), SelectDone);
      assert t.caller == ReturnedNil && t.failed == s.failed;
      ExecUnfold(Next(s, Join), SelectDone, []);
      ExecUnfold(s, Join, [SelectDone] + []);
      ExecAppend(Start(clients), closing, [Join] + ([SelectDone] + []));
      assert NilDespite(clients, closing + ([Join] + ([SelectDone] + [])));
    }
  }
}

/**
 Whole runs of the batching producer: callers that send, drain errors and close, interleaved with
 the run loop. An iteration finishes its work on the batch before its errors have all gone into
 the one-slot errCh: the loop is back at its select only once every error it emitted was pushed,
 which is how a blocked `errCh <- err` is represented. (After a failed overflow flush the second
 AddMessage sees the same batch, so nothing the loop does depends on the moment it is unblocked.)
 */
module BatchRuns {
  import opened Batching

  /** The loop's state, with the history needed to state what a run promises. */
  datatype Producer = Producer(
    batch: seq<Message>,
    sent: seq<seq<Message>>,    // batches the broker took, in order
    emitted: seq<Error>,        // errors reported by iterations, in order
    accepted: seq<Message>,     // messages whose Send returned nil, in order
    kept: seq<bool>,            // one entry per message the loop has received: was it kept?
    stopped: bool,
    flushFailed: bool,          // did the latest flush of a non-empty batch fail?
    tickFlushes: nat            // ticks that found a non-empty batch
  )

  /** errCh holds emitted[drained..pushed]; the caller has read emitted[..drained]. */
  datatype System = System(p: Producer, sendCh: seq<Message>, closing: bool, pushed: nat, drained: nat)

  datatype Step =
    | Send(m: Message)                                      // the buffered case of Send
    | Handoff(m: Message, overflowOk: bool, fullOk: bool)   // Send on the unbuffered channel of BatchSize 0
    | TakeMessage(overflowOk: bool, fullOk: bool)
    | TakeTick(sendOk: bool)
    | TakeClose(sendOk: bool)
    | PushError
    | DrainError
    | RequestClose

  function Start(): System {
    System(Producer([], [], [], [], [], false, false, 0), [], false, 0, 0)
  }

  predicate AtSelect(s: System) {
    !s.p.stopped && s.pushed == |s.p.emitted|
  }

  /** closedCh is closed: the last flush is over and its error, if any, is in errCh. */
  predicate Closed(s: System) {
    s.p.stopped && s.pushed == |s.p.emitted|
  }

  predicate Enabled(config: Config, s: System, step: Step) {
    match step
    case Send(_) => |s.sendCh| < 2 * config.batchSize
    case Handoff(_, _, _) => config.batchSize == 0 && s.sendCh == [] && AtSelect(s)
    case TakeMessage(_, _) => AtSelect(s) && s.sendCh != []
    case TakeTick(_) => AtSelect(s)
    case TakeClose(_) => AtSelect(s) && s.closing
    case PushError => s.pushed < |s.p.emitted| && s.pushed == s.drained
    case DrainError => s.drained < s.pushed
    case RequestClose => !s.closing
  }

  function AfterFlush(batch: seq<Message>, sendOk: bool, flushFailed: bool): bool {
    if batch == [] then flushFailed else Flushed(batch, sendOk).errors != []
  }

  function FlushFailedAfter(config: Config, p: Producer, e: Event): bool {
    match e
    case Receive(m, overflowOk, fullOk) =>
      var overflow :=
        if Admits(config, p.batch, m) then p.flushFailed else AfterFlush(p.batch, overflowOk, p.flushFailed);
      var room := MakeRoom(config, p.batch, m, overflowOk).batch;
      if Admits(config, room, m) && Full(config, room + [m]) then AfterFlush(room + [m], fullOk, overflow) else overflow
    case Tick(sendOk) => AfterFlush(p.batch, sendOk, p.flushFailed)
    case Stop(sendOk) => AfterFlush(p.batch, sendOk, p.flushFailed)
  }

  function Iterated(config: Config, p: Producer, e: Event): Producer {
    var out := Iteration(config, p.batch, e);
    p.(batch := out.batch,
       sent := p.sent + out.sent,
       emitted := p.emitted + out.errors,
       kept := if e.Receive? then p.kept + [Kept(config, p.batch, e)] else p.kept,
       stopped := e.Stop?,
       flushFailed := FlushFailedAfter(config, p, e),
       tickFlushes := p.tickFlushes + if e.Tick? && p.batch != [] then 1 else 0)
  }

  function Next(config: Config, s: System, step: Step): System {
    if !Enabled(config, s, step) then s
    else
      match step
      case Send(m) =>
        s.(sendCh := s.sendCh + [m], p := s.p.(accepted := s.p.accepted + [m]))
      case Handoff(m, overflowOk, fullOk) =>
        s.(p := Iterated(config, s.p.(accepted := s.p.accepted + [m]), Receive(m, overflowOk, fullOk)))
      case TakeMessage(overflowOk, fullOk) =>
        s.(sendCh := s.sendCh[1..], p := Iterated(config, s.p, Receive(s.sendCh[0], overflowOk, fullOk)))
      case TakeTick(sendOk) => s.(p := Iterated(config, s.p, Tick(sendOk)))
      case TakeClose(sendOk) => s.(p := Iterated(config, s.p, Stop(sendOk)))
      case PushError => s.(pushed := s.pushed + 1)
      case DrainError => s.(drained := s.drained + 1)
      case RequestClose => s.(closing := true)
  }

  /** A run: steps that are not enabled do nothing. */
  function Exec(config: Config, s: System, steps: seq<Step>): System
    decreases |steps|
  {
    if steps == [] then s else Exec(config, Next(config, s, steps[0]), steps[1..])
  }

  // ---------------------------------------------------------------------------------------------
  // Conservation and order
  // ---------------------------------------------------------------------------------------------

  function Flatten(parts: seq<seq<Message>>): seq<Message> {
    if parts == [] then [] else Flatten(parts[..|parts| - 1]) + parts[|parts| - 1]
  }

  /** The received messages that were kept (or, with `want` false, those dropped), in order. */
  function Chosen(ms: seq<Message>, kept: seq<bool>, want: bool): seq<Message>
    requires |kept| <= |ms|
  {
    if kept == [] then []
    else
      var n := |kept| - 1;
      Chosen(ms, kept[..n], want) + if kept[n] == want then [ms[n]] else []
  }

  /** Every accepted message is received or still in sendCh; the kept ones are, in order and once
      each, in the sent batches and then the current batch. */
  ghost predicate Conserved(s: System) {
    && |s.p.kept| + |s.sendCh| == |s.p.accepted|
    && s.p.accepted[|s.p.kept|..] == s.sendCh
    && Flatten(s.p.sent) + s.p.batch == Chosen(s.p.accepted, s.p.kept, true)
  }

  lemma {:induction false} ChosenIgnoresTail(ms: seq<Message>, more: seq<Message>, kept: seq<bool>, want: bool)
    requires |kept| <= |ms|
    ensures Chosen(ms + more, kept, want) == Chosen(ms, kept, want)
    decreases |kept|
  {
    if kept != [] {
      ChosenIgnoresTail(ms, more, kept[..|kept| - 1], want);
    }
  }

  lemma {:induction false} FlattenSnoc(parts: seq<seq<Message>>, part: seq<Message>)
    ensures Flatten(parts + [part]) == Flatten(parts) + part
  {
    assert (parts + [part])[..|parts|] == parts;
  }

  /** `out` passes on, in order, the messages of `batch` followed by `extra`. */
  ghost predicate Moves(batch: seq<Message>, out: Outcome, extra: seq<Message>) {
    Flatten(out.sent) + out.batch == batch + extra
  }

  lemma {:induction false} FlushMoves(batch: seq<Message>, sendOk: bool)
    ensures Moves(batch, Flushed(batch, sendOk), [])
    ensures Moves(batch, Idle(batch), [])
  {
    FlattenSnoc([], batch);
    assert [] + [batch] == [batch];
  }

  lemma {:induction false} MovesThen(batch: seq<Message>, first: Outcome, second: Outcome, extra: seq<Message>)
    requires Moves(batch, first, []) && Moves(first.batch, second, extra)
    ensures Moves(batch, first.Then(second), extra)
  {
    FlattenAppend(first.sent, second.sent);
    assert Flatten(first.sent) + first.batch == batch by {
      assert batch + [] == batch;
    }
    calc {
      Flatten(first.sent + second.sent) + second.batch;
      Flatten(first.sent) + Flatten(second.sent) + second.batch;
      Flatten(first.sent) + (Flatten(second.sent) + second.batch);
      Flatten(first.sent) + (first.batch + extra);
      Flatten(first.sent) + first.batch + extra;
      batch + extra;
    }
  }

  /** An iteration moves messages between the batch and the broker without losing or reordering
      any; a received message joins at the end if it is kept. */
  lemma {:induction false} IterationConserves(config: Config, batch: seq<Message>, e: Event)
    ensures Moves(batch, Iteration(config, batch, e),
                  if e.Receive? && Kept(config, batch, e) then [e.m] else [])
  {
    match e
    case Tick(sendOk) => FlushMoves(batch, sendOk);
    case Stop(sendOk) => FlushMoves(batch, sendOk);
    case Receive(m, overflowOk, fullOk) =>
      FlushMoves(batch, overflowOk);
      var room := MakeRoom(config, batch, m, overflowOk);
      if Admits(config, room.batch, m) {
        FlushMoves(room.batch + [m], fullOk);
        MovesThen(batch, room, FlushIfFull(config, room.batch + [m], fullOk), [m]);
      } else {
        MovesThen(batch, room, Outcome(room.batch, [], [Refusal(config, room.batch)]), []);
      }
  }

  lemma {:induction false} FlattenAppend(a: seq<seq<Message>>, b: seq<seq<Message>>)
    ensures Flatten(a + b) == Flatten(a) + Flatten(b)
  {
    if b == [] {
      assert a + b == a;
    } else {
      var n := |b| - 1;
      FlattenAppend(a, b[..n]);
      assert a + b == (a + b[..n]) + [b[n]];
      FlattenSnoc(a + b[..n], b[n]);
      assert Flatten(a) + (Flatten(b[..n]) + b[n]) == Flatten(a) + Flatten(b[..n]) + b[n];
    }
  }

  lemma {:induction false} ProducerConserves(config: Config, p: Producer, e: Event)
    ensures var q := Iterated(config, p, e);
            Flatten(q.sent) + q.batch ==
            Flatten(p.sent) + p.batch + if e.Receive? && Kept(config, p.batch, e) then [e.m] else []
  {
    var extra := if e.Receive? && Kept(config, p.batch, e) then [e.m] else [];
    var past := Outcome(p.batch, p.sent, p.emitted);
    IterationConserves(config, p.batch, e);
    assert Flatten(p.sent) + p.batch + [] == Flatten(p.sent) + p.batch;
    MovesThen(Flatten(p.sent) + p.batch, past, Iteration(config, p.batch, e), extra);
  }

  lemma {:induction false} ReceiveConserves(config: Config, p: Producer, e: Event)
    requires e.Receive? && |p.kept| < |p.accepted| && p.accepted[|p.kept|] == e.m
    requires Flatten(p.sent) + p.batch == Chosen(p.accepted, p.kept, true)
    ensures var q := Iterated(config, p, e);
            Flatten(q.sent) + q.batch == Chosen(p.accepted, q.kept, true)
  {
    ProducerConserves(config, p, e);
    var kept := Kept(config, p.batch, e);
    assert (p.kept + [kept])[..|p.kept|] == p.kept;
  }

  lemma {:induction false} NextConserves(config: Config, s: System, step: Step)
    requires Conserved(s)
    ensures Conserved(Next(config, s, step))
  {
    if !Enabled(config, s, step) {
      return;
    }
    match step
    case Send(m) =>
      ChosenIgnoresTail(s.p.accepted, [m], s.p.kept, true);
    case Handoff(m, overflowOk, fullOk) =>
      ChosenIgnoresTail(s.p.accepted, [m], s.p.kept, true);
      ReceiveConserves(config, s.p.(accepted := s.p.accepted + [m]), Receive(m, overflowOk, fullOk));
    case TakeMessage(overflowOk, fullOk) =>
      assert s.sendCh[0] == s.p.accepted[|s.p.kept|];
      ReceiveConserves(config, s.p, Receive(s.sendCh[0], overflowOk, fullOk));
    case TakeTick(sendOk) =>
      ProducerConserves(config, s.p, Tick(sendOk));
    case TakeClose(sendOk) =>
      ProducerConserves(config, s.p, Stop(sendOk));
    case _ =>
  }

  lemma {:induction false} RunConserves(config: Config, s: System, steps: seq<Step>)
    requires Conserved(s)
    ensures Conserved(Exec(config, s, steps))
    decreases |steps|
  {
    if steps != [] {
      NextConserves(config, s, steps[0]);
      RunConserves(config, Next(config, s, steps[0]), steps[1..]);
    }
  }

  /** Conservation and FIFO for every run from the start: whatever fails, ticks or is closed, and
      wherever the run stops, the messages accepted by Send are those still queued plus, in order,
      the received ones; and the received ones that were not dropped are the sent batches followed
      by the current batch. Each accepted occurrence therefore reaches at most one sent batch. */
  lemma {:induction false} Conservation(config: Config, steps: seq<Step>)
    ensures var s := Exec(config, Start(), steps);
            && Conserved(s)
            && multiset(s.p.accepted) ==
               multiset(Flatten(s.p.sent)) + multiset(s.p.batch) + multiset(s.sendCh)
               + multiset(Chosen(s.p.accepted, s.p.kept, false))
  {
    RunConserves(config, Start(), steps);
    var s := Exec(config, Start(), steps);
    var n := |s.p.kept|;
    ChosenCovers(s.p.accepted, s.p.kept);
    assert s.p.accepted == s.p.accepted[..n] + s.p.accepted[n..];
    assert multiset(Chosen(s.p.accepted, s.p.kept, true)) == multiset(Flatten(s.p.sent)) + multiset(s.p.batch);
  }

  lemma {:induction false} ChosenCovers(ms: seq<Message>, kept: seq<bool>)
    requires |kept| <= |ms|
    ensures multiset(ms[..|kept|]) == multiset(Chosen(ms, kept, true)) + multiset(Chosen(ms, kept, false))
    decreases |kept|
  {
    if kept != [] {
      var n := |kept| - 1;
      ChosenCovers(ms, kept[..n]);
      assert ms[..|kept|] == ms[..n] + [ms[n]];
    }
  }

  /** Nothing that was kept stays behind: in every run, a tick or the close case that finds a one-topic
      batch, and whose send succeeds, leaves the batch empty, and then everything the loop has kept
      so far has been sent, in order. */
  lemma {:induction false} FlushSendsAll(config: Config, steps: seq<Step>, step: Step)
    requires step == TakeTick(true) || step == TakeClose(true)
    requires Enabled(config, Exec(config, Start(), steps), step)
    requires SameTopic(Exec(config, Start(), steps).p.batch)
    ensures var s := Exec(config, Start(), steps);
            var p := Next(config, s, step).p;
            && p.batch == [] && p.emitted == s.p.emitted && |p.kept| <= |p.accepted|
            && p.sent == s.p.sent + (if s.p.batch == [] then [] else [s.p.batch])
            && Flatten(p.sent) == Chosen(p.accepted, p.kept, true)
  {
    RunConserves(config, Start(), steps);
    var s := Exec(config, Start(), steps);
    NextConserves(config, s, step);
    var p := Next(config, s, step).p;
    assert p.batch == [];
    assert Flatten(p.sent) + [] == Flatten(p.sent);
  }

  function Sends(ms: seq<Message>): seq<Step> {
    if ms == [] then [] else [Send(ms[0])] + Sends(ms[1..])
  }

  function FirstOf(ms: seq<Message>, room: nat): seq<Message> {
    if |ms| <= room then ms else ms[..room]
  }

  lemma FirstOfCons(before: seq<Message>, ms: seq<Message>, room: nat)
    requires ms != [] && room > 0
    ensures before + [ms[0]] + FirstOf(ms[1..], room - 1) == before + FirstOf(ms, room)
  {
    assert ms == [ms[0]] + ms[1..];
    assert [ms[0]] + FirstOf(ms[1..], room - 1) == FirstOf(ms, room);
  }

  /** While the loop is busy elsewhere, Send accepts messages up to twice BatchSize and then refuses. */
  lemma {:induction false} SendsUpToCapacity(config: Config, s: System, ms: seq<Message>)
    requires |s.sendCh| <= 2 * config.batchSize
    ensures var taken := FirstOf(ms, 2 * config.batchSize - |s.sendCh|);
            Exec(config, s, Sends(ms)) ==
            s.(sendCh := s.sendCh + taken, p := s.p.(accepted := s.p.accepted + taken))
    decreases |ms|
  {
    var room := 2 * config.batchSize - |s.sendCh|;
    if ms == [] {
      assert s.sendCh + [] == s.sendCh && s.p.accepted + [] == s.p.accepted;
      return;
    }
    SendsCons(config, s, ms);
    if room > 0 {
      SendsUpToCapacity(config, Accepting(s, ms[0]), ms[1..]);
      FirstOfCons(s.sendCh, ms, room);
      FirstOfCons(s.p.accepted, ms, room);
    } else {
      SendsUpToCapacity(config, s, ms[1..]);
      assert FirstOf(ms, 0) == FirstOf(ms[1..], 0) == [];
    }
  }

  function Accepting(s: System, m: Message): System {
    s.(sendCh := s.sendCh + [m], p := s.p.(accepted := s.p.accepted + [m]))
  }

  lemma SendsCons(config: Config, s: System, ms: seq<Message>)
    requires ms != []
    ensures Exec(config, s, Sends(ms)) ==
            Exec(config, if |s.sendCh| < 2 * config.batchSize then Accepting(s, ms[0]) else s, Sends(ms[1..]))
  {
    assert Sends(ms)[0] == Send(ms[0]) && Sends(ms)[1..] == Sends(ms[1..]);
  }

  // ---------------------------------------------------------------------------------------------
  // Runs of the system and runs of the loop
  // ---------------------------------------------------------------------------------------------

  function EventOf(config: Config, s: System, step: Step): seq<Event> {
    if !Enabled(config, s, step) then []
    else
      match step
      case Handoff(m, overflowOk, fullOk) => [Receive(m, overflowOk, fullOk)]
      case TakeMessage(overflowOk, fullOk) => [Receive(s.sendCh[0], overflowOk, fullOk)]
      case TakeTick(sendOk) => [Tick(sendOk)]
      case TakeClose(sendOk) => [Stop(sendOk)]
      case _ => []
  }

  /** The cases the loop's select takes along a run of the system. */
  function Trace(config: Config, s: System, steps: seq<Step>): seq<Event>
    decreases |steps|
  {
    if steps == [] then [] else EventOf(config, s, steps[0]) + Trace(config, Next(config, s, steps[0]), steps[1..])
  }

  function Work(p: Producer): Outcome {
    Outcome(p.batch, p.sent, p.emitted)
  }

  lemma {:induction false} RunFromCons(config: Config, done: Outcome, e: Event, events: seq<Event>)
    ensures RunFrom(config, done, [e] + events) ==
            var next := done.Then(Iteration(config, done.batch, e));
            if e.Stop? then next else RunFrom(config, next, events)
  {
    assert ([e] + events)[1..] == events;
  }

  lemma {:induction false} StoppedIsQuiet(config: Config, s: System, steps: seq<Step>)
    requires s.p.stopped
    ensures Trace(config, s, steps) == [] && Work(Exec(config, s, steps).p) == Work(s.p)
    decreases |steps|
  {
    if steps != [] {
      StoppedIsQuiet(config, Next(config, s, steps[0]), steps[1..]);
    }
  }

  /** Whatever its surroundings do, the loop does exactly what BatchProducer.Run does on the cases it
      took. */
  lemma {:induction false} SystemRunsTheLoop(config: Config, s: System, steps: seq<Step>)
    requires !s.p.stopped
    ensures Work(Exec(config, s, steps).p) == RunFrom(config, Work(s.p), Trace(config, s, steps))
    decreases |steps|
  {
    if steps != [] {
      var next := Next(config, s, steps[0]);
      var event, rest := EventOf(config, s, steps[0]), Trace(config, next, steps[1..]);
      if event == [] {
        assert [] + rest == rest;
        assert Work(next.p) == Work(s.p) && !next.p.stopped;
        SystemRunsTheLoop(config, next, steps[1..]);
      } else {
        assert event == [event[0]];
        assert Work(next.p) == Work(s.p).Then(Iteration(config, s.p.batch, event[0]));
        RunFromCons(config, Work(s.p), event[0], rest);
        if next.p.stopped {
          StoppedIsQuiet(config, next, steps[1..]);
        } else {
          SystemRunsTheLoop(config, next, steps[1..]);
        }
      }
    }
  }
}

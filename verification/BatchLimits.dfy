/**
 What holds in every run of the batching producer: the limits each batch meets, when the topic
 check can fail and what follows once it does, and how an unread error stops the loop.
 */
module BatchLimits {
  import opened Batching
  import opened BatchRuns

  // ---------------------------------------------------------------------------------------------
  // The byte and count limits
  // ---------------------------------------------------------------------------------------------

  /** Every message was admitted to the batch formed by the messages before it. */
  ghost predicate Admissible(config: Config, batch: seq<Message>) {
    forall i :: 0 <= i < |batch| ==> Admits(config, batch[..i], batch[i])
  }

  lemma AdmissibleSnoc(config: Config, batch: seq<Message>, m: Message)
    requires Admissible(config, batch) && Admits(config, batch, m)
    ensures Admissible(config, batch + [m])
  {
    forall i | 0 <= i < |batch| + 1
      ensures Admits(config, (batch + [m])[..i], (batch + [m])[i])
    {
      assert (batch + [m])[..i] == batch[..i];
      assert batch[..|batch|] == batch;
    }
  }

  /** What every batch handed to the broker satisfies. */
  ghost predicate Sendable(config: Config, batch: seq<Message>) {
    batch != [] && SameTopic(batch) && Admissible(config, batch)
  }

  ghost predicate ProducerWithin(config: Config, p: Producer) {
    && Admissible(config, p.batch)
    && (forall i :: 0 <= i < |p.sent| ==> Sendable(config, p.sent[i]))
    && (config.batchSize > 0 && config.batchBytes > 0 && Full(config, p.batch) ==> p.flushFailed)
    && (p.stopped && p.batch != [] ==> p.flushFailed)
  }

  ghost predicate WithinLimits(config: Config, s: System) {
    && ProducerWithin(config, s.p)
    && (s.p.stopped ==> s.closing)
    && s.drained <= s.pushed <= s.drained + 1
    && s.pushed <= |s.p.emitted|
    && |s.sendCh| <= 2 * config.batchSize
  }

  ghost predicate Sound(config: Config, out: Outcome) {
    Admissible(config, out.batch) && forall i :: 0 <= i < |out.sent| ==> Sendable(config, out.sent[i])
  }

  lemma {:induction false} SoundThen(config: Config, first: Outcome, next: Outcome)
    requires Sound(config, first) && Sound(config, next)
    ensures Sound(config, first.Then(next))
  {
  }

  lemma {:induction false} FlushSound(config: Config, batch: seq<Message>, sendOk: bool)
    requires Admissible(config, batch)
    ensures Sound(config, Flushed(batch, sendOk)) && Sound(config, Idle(batch))
  {
  }

  /** An iteration leaves an admissible batch and sends sendable ones. */
  lemma {:induction false} IterationSound(config: Config, batch: seq<Message>, e: Event)
    requires Admissible(config, batch)
    ensures Sound(config, Iteration(config, batch, e))
  {
    match e
    case Tick(sendOk) => FlushSound(config, batch, sendOk);
    case Stop(sendOk) => FlushSound(config, batch, sendOk);
    case Receive(m, overflowOk, fullOk) =>
      FlushSound(config, batch, overflowOk);
      var room := MakeRoom(config, batch, m, overflowOk);
      if Admits(config, room.batch, m) {
        AdmissibleSnoc(config, room.batch, m);
        FlushSound(config, room.batch + [m], fullOk);
        SoundThen(config, room, FlushIfFull(config, room.batch + [m], fullOk));
      } else {
        SoundThen(config, room, Outcome(room.batch, [], [Refusal(config, room.batch)]));
      }
  }

  /** A batch that is full after an iteration is one whose latest flush failed; so is one that is
      left when the loop stops. */
  lemma {:induction false} FullAfterFailure(config: Config, p: Producer, e: Event)
    requires config.batchSize > 0 && config.batchBytes > 0 && Full(config, p.batch) ==> p.flushFailed
    ensures var q := Iterated(config, p, e);
            && (config.batchSize > 0 && config.batchBytes > 0 && Full(config, q.batch) ==> q.flushFailed)
            && (q.stopped && q.batch != [] ==> q.flushFailed)
  {
    assert SizeOf([]) == 0;
  }

  lemma {:induction false} IterationWithinLimits(config: Config, p: Producer, e: Event)
    requires ProducerWithin(config, p)
    ensures ProducerWithin(config, Iterated(config, p, e))
  {
    IterationSound(config, p.batch, e);
    SoundThen(config, Outcome(p.batch, p.sent, p.emitted), Iteration(config, p.batch, e));
    FullAfterFailure(config, p, e);
  }

  lemma {:induction false} RunWithinLimits(config: Config, s: System, steps: seq<Step>)
    requires WithinLimits(config, s)
    ensures WithinLimits(config, Exec(config, s, steps))
    decreases |steps|
  {
    if steps != [] {
      NextWithinLimits(config, s, steps[0]);
      RunWithinLimits(config, Next(config, s, steps[0]), steps[1..]);
    }
  }

  lemma {:induction false} NextWithinLimits(config: Config, s: System, step: Step)
    requires WithinLimits(config, s)
    ensures WithinLimits(config, Next(config, s, step))
  {
    ProducerStaysWithin(config, s, step);
    var t := Next(config, s, step);
    assert s.p.emitted <= t.p.emitted;
  }

  lemma {:induction false} ProducerStaysWithin(config: Config, s: System, step: Step)
    requires ProducerWithin(config, s.p)
    ensures ProducerWithin(config, Next(config, s, step).p)
  {
    if Enabled(config, s, step) {
      match step
      case Send(m) => assert ProducerWithin(config, s.p.(accepted := s.p.accepted + [m]));
      case Handoff(m, overflowOk, fullOk) =>
        IterationWithinLimits(config, s.p.(accepted := s.p.accepted + [m]), Receive(m, overflowOk, fullOk));
      case TakeMessage(overflowOk, fullOk) =>
        IterationWithinLimits(config, s.p, Receive(s.sendCh[0], overflowOk, fullOk));
      case TakeTick(sendOk) => IterationWithinLimits(config, s.p, Tick(sendOk));
      case TakeClose(sendOk) => IterationWithinLimits(config, s.p, Stop(sendOk));
      case _ =>
    }
  }

  /** BatchBytes limits everything but the overhead of a batch's last message. */
  lemma {:induction false} ByteBound(config: Config, batch: seq<Message>)
    requires Admissible(config, batch) && batch != []
    ensures |batch| <= config.batchSize
    ensures var last := batch[|batch| - 1];
            var room := config.batchBytes - SizeOf(batch[..|batch| - 1]) - |last.body|;
            && room >= 0
            && SizeOf(batch) <= config.batchBytes + last.Overhead()
            && (SizeOf(batch) <= config.batchBytes <==> last.Overhead() <= room)
  {
    assert Admits(config, batch[..|batch| - 1], batch[|batch| - 1]);
  }

  /** In every run: the current batch and every sent batch are admissible (so ByteBound applies),
      sent batches are non-empty and of one topic, a full batch is one whose latest flush failed, the
      loop stops only after Close was called, and what is left in the batch when the loop has stopped
      was in a failed final flush. */
  lemma {:induction false} Limits(config: Config, steps: seq<Step>)
    ensures WithinLimits(config, Exec(config, Start(), steps))
  {
    RunWithinLimits(config, Start(), steps);
  }

  /** So in every run the current batch and every batch the broker took hold at most BatchSize messages
      and at most BatchBytes plus the overhead of their last message. */
  lemma {:induction false} BatchesInRuns(config: Config, steps: seq<Step>, batch: seq<Message>)
    requires var p := Exec(config, Start(), steps).p; batch == p.batch || batch in p.sent
    ensures |batch| <= config.batchSize
    ensures batch != [] ==> SizeOf(batch) <= config.batchBytes + batch[|batch| - 1].Overhead()
  {
    Limits(config, steps);
    if batch != [] {
      ByteBound(config, batch);
    }
  }

  /** BatchBytes itself is not a bound on Size(): whenever a body fits but the whole message does
      not, the message is accepted into an empty batch and sent, above the limit. */
  lemma {:induction false} SizeMayExceedBatchBytes(config: Config, m: Message, overflowOk: bool)
    requires config.batchSize > 0 && |m.body| <= config.batchBytes < m.Size()
    ensures Iteration(config, [], Receive(m, overflowOk, true)) == Outcome([], [[m]], [])
    ensures SizeOf([m]) > config.batchBytes
  {
    assert SizeOf([]) == 0 && [] + [m] == [m] && [m][..0] == [];
    assert SizeOf([m]) == m.Size();
    assert Full(config, [m]) && SameTopic([m]);
  }

  /** In this run a batch is built or sent that ends in m and is larger than BatchBytes. */
  ghost predicate Exceeds(config: Config, m: Message, steps: seq<Step>, batch: seq<Message>) {
    var p := Exec(config, Start(), steps).p;
    && (batch == p.batch || batch in p.sent)
    && batch != [] && batch[|batch| - 1] == m && SizeOf(batch) > config.batchBytes
  }

  /** What a caller can check of a message before sending it. */
  predicate CanExceed(config: Config, m: Message) {
    && |m.body| <= config.batchBytes
    && if config.batchSize >= 2 then m.Overhead() > 0 else config.batchSize == 1 && m.Size() > config.batchBytes
  }

  /** The loop is idle at its select, with nothing queued and no error unread. */
  predicate Quiet(s: System) {
    AtSelect(s) && s.sendCh == [] && s.drained == s.pushed
  }

  /** Sending m and letting the loop take it, every send of the broker failing. */
  function TakingOne(m: Message): seq<Step> {
    [Send(m), TakeMessage(true, false), PushError, DrainError]
  }

  lemma {:induction false} FailingReceive(config: Config, batch: seq<Message>, m: Message)
    requires Admits(config, batch, m)
    ensures var out := Iteration(config, batch, Receive(m, true, false));
            out.batch == batch + [m] && |out.errors| <= 1
  {
  }

  lemma {:induction false} SendAndTake(config: Config, s: System, m: Message)
    requires Quiet(s) && Admits(config, s.p.batch, m)
    ensures var t := Next(config, Next(config, s, Send(m)), TakeMessage(true, false));
            && !t.p.stopped && t.sendCh == [] && t.drained == t.pushed <= |t.p.emitted| <= t.pushed + 1
            && t.p.batch == s.p.batch + [m] && t.p.accepted == s.p.accepted + [m]
  {
    FailingReceive(config, s.p.batch, m);
    var s1 := Next(config, s, Send(m));
    assert s1.sendCh == [m] && AtSelect(s1) && s1.p.batch == s.p.batch && s1.p.accepted == s.p.accepted + [m];
  }

  lemma {:induction false} ReadOneError(config: Config, s: System)
    requires !s.p.stopped && s.sendCh == [] && s.drained == s.pushed <= |s.p.emitted| <= s.pushed + 1
    ensures var t := Next(config, Next(config, s, PushError), DrainError);
            Quiet(t) && t.p == s.p
  {
  }

  lemma {:induction false} TakeOne(config: Config, s: System, m: Message)
    requires Quiet(s) && Admits(config, s.p.batch, m)
    ensures var t := Exec(config, s, TakingOne(m));
            Quiet(t) && t.p.batch == s.p.batch + [m] && t.p.accepted == s.p.accepted + [m]
  {
    SendAndTake(config, s, m);
    var s1 := Next(config, s, Send(m));
    var s2 := Next(config, s1, TakeMessage(true, false));
    var s3 := Next(config, s2, PushError);
    ReadOneError(config, s2);
    ExecUnfold(config, s, Send(m), [TakeMessage(true, false), PushError, DrainError]);
    ExecUnfold(config, s1, TakeMessage(true, false), [PushError, DrainError]);
    ExecUnfold(config, s2, PushError, [DrainError]);
    ExecUnfold(config, s3, DrainError, []);
    assert [Send(m)] + [TakeMessage(true, false), PushError, DrainError] == TakingOne(m);
  }

  lemma ExecUnfold(config: Config, s: System, step: Step, rest: seq<Step>)
    ensures Exec(config, s, [step] + rest) == Exec(config, Next(config, s, step), rest)
  {
    assert ([step] + rest)[1..] == rest;
  }

  lemma {:induction false} ExecAppend(config: Config, s: System, a: seq<Step>, b: seq<Step>)
    ensures Exec(config, s, a + b) == Exec(config, Exec(config, s, a), b)
    decreases |a|
  {
    if a == [] {
      assert a + b == b;
    } else {
      assert (a + b)[0] == a[0] && (a + b)[1..] == a[1..] + b;
      ExecAppend(config, Next(config, s, a[0]), a[1..], b);
    }
  }

  /** A message of m's topic whose size is the room m's body leaves. */
  function Filler(config: Config, m: Message): Message
    requires m.Size() <= config.batchBytes
  {
    Message(m.topic, [], [], seq(config.batchBytes - |m.body| - |m.topic|, _ => 0))
  }

  lemma {:induction false} SizeOfTwo(a: Message, b: Message)
    ensures SizeOf([a]) == a.Size() && SizeOf([a, b]) == a.Size() + b.Size()
  {
    assert [a, b][..1] == [a] && [a][..0] == [] && SizeOf([]) == 0;
  }

  /** The batch after an idle loop has taken one message, and after it has taken two. */
  lemma {:induction false} TakenOne(config: Config, m: Message)
    requires config.batchSize > 0 && |m.body| <= config.batchBytes
    ensures var s := Exec(config, Start(), TakingOne(m));
            Quiet(s) && s.p.batch == [m] && s.p.accepted == [m]
  {
    assert SizeOf([]) == 0;
    TakeOne(config, Start(), m);
    assert [] + [m] == [m];
  }

  lemma {:induction false} TakenTwo(config: Config, a: Message, b: Message)
    requires config.batchSize > 1 && a.Size() + |b.body| <= config.batchBytes
    ensures var s := Exec(config, Start(), TakingOne(a) + TakingOne(b));
            Quiet(s) && s.p.batch == [a, b] && s.p.accepted == [a, b]
  {
    TakenOne(config, a);
    SizeOfTwo(a, b);
    TakeOne(config, Exec(config, Start(), TakingOne(a)), b);
    ExecAppend(config, Start(), TakingOne(a), TakingOne(b));
    assert [a] + [b] == [a, b];
  }

  lemma {:induction false} ExceedingRun(config: Config, m: Message)
    requires CanExceed(config, m)
    ensures exists steps, batch :: Exceeds(config, m, steps, batch)
  {
    if m.Size() > config.batchBytes {
      var steps := TakingOne(m);
      TakenOne(config, m);
      SizeOfTwo(m, m);
      assert Exceeds(config, m, steps, [m]);
    } else {
      var f := Filler(config, m);
      var steps := TakingOne(f) + TakingOne(m);
      TakenTwo(config, f, m);
      SizeOfTwo(f, m);
      assert Exceeds(config, m, steps, [f, m]);
    }
  }

  /** Exactly which messages can push a batch over BatchBytes: some run has a current or sent batch
      that ends in m and is too large if and only if m's body fits and, for BatchSize at least 2, m
      has any topic, tag or key, or, for BatchSize 1, m as a whole does not fit. */
  lemma {:induction false} ExceedsExactly(config: Config, m: Message)
    ensures (exists steps, batch :: Exceeds(config, m, steps, batch)) <==> CanExceed(config, m)
  {
    forall steps, batch | Exceeds(config, m, steps, batch) ensures CanExceed(config, m) {
      BatchesInRuns(config, steps, batch);
      Limits(config, steps);
      ByteBound(config, batch);
      if |batch| == 1 {
        assert batch == [m];
        SizeOfTwo(m, m);
      }
    }
    if CanExceed(config, m) {
      ExceedingRun(config, m);
    }
  }

  // ---------------------------------------------------------------------------------------------
  // Topics
  // ---------------------------------------------------------------------------------------------

  /** Once a batch mixes topics an iteration sends nothing, only ever appends to the batch, and
      every flush it tries reports the mix (the first error it emits). */
  lemma {:induction false} MixedIteration(config: Config, batch: seq<Message>, e: Event)
    requires !SameTopic(batch)
    ensures var out := Iteration(config, batch, e);
            && out.sent == [] && batch <= out.batch && !SameTopic(out.batch)
            && (!e.Receive? ==> out.errors == [MixedTopics] && out.batch == batch)
            && (e.Receive? ==> out.batch == if Kept(config, batch, e) then batch + [e.m] else batch)
            && (e.Receive? && (!Admits(config, batch, e.m) || Full(config, out.batch)) ==>
                  out.errors != [] && out.errors[0] == MixedTopics)
            && (e.Receive? && !Admits(config, batch, e.m) ==> !Kept(config, batch, e))
  {
    if e.Receive? {
      MixedExtends(batch, [e.m]);
    }
  }

  lemma MixedExtends(batch: seq<Message>, more: seq<Message>)
    requires !SameTopic(batch)
    ensures !SameTopic(batch + more)
  {
    var i :| 0 <= i < |batch| && batch[i].topic != batch[0].topic;
    assert (batch + more)[i].topic != (batch + more)[0].topic;
  }

  lemma {:induction false} NextMixed(config: Config, s: System, step: Step)
    requires !SameTopic(s.p.batch)
    ensures var t := Next(config, s, step);
            t.p.sent == s.p.sent && s.p.batch <= t.p.batch && !SameTopic(t.p.batch)
  {
    if Enabled(config, s, step) {
      match step
      case Handoff(m, overflowOk, fullOk) => MixedIteration(config, s.p.batch, Receive(m, overflowOk, fullOk));
      case TakeMessage(overflowOk, fullOk) =>
        MixedIteration(config, s.p.batch, Receive(s.sendCh[0], overflowOk, fullOk));
      case TakeTick(sendOk) => MixedIteration(config, s.p.batch, Tick(sendOk));
      case TakeClose(sendOk) => MixedIteration(config, s.p.batch, Stop(sendOk));
      case _ =>
    }
  }

  /** The mixed-topic trap: in every continuation the producer never sends again and the batch
      keeps all it holds. */
  lemma {:induction false} MixedForever(config: Config, s: System, steps: seq<Step>)
    requires !SameTopic(s.p.batch)
    ensures var t := Exec(config, s, steps);
            t.p.sent == s.p.sent && s.p.batch <= t.p.batch && !SameTopic(t.p.batch)
    decreases |steps|
  {
    if steps != [] {
      var next := Next(config, s, steps[0]);
      NextMixed(config, s, steps[0]);
      MixedForever(config, next, steps[1..]);
    }
  }

  ghost predicate AllOf(topic: Text, ms: seq<Message>) {
    forall i :: 0 <= i < |ms| ==> ms[i].topic == topic
  }

  ghost predicate OneTopicSoFar(topic: Text, s: System) {
    AllOf(topic, s.p.accepted) ==>
      AllOf(topic, s.sendCh) && AllOf(topic, s.p.batch) && MixedTopics !in s.p.emitted
  }

  ghost predicate KeepsTopic(topic: Text, out: Outcome) {
    AllOf(topic, out.batch) && MixedTopics !in out.errors
  }

  lemma {:induction false} IterationOneTopic(config: Config, batch: seq<Message>, e: Event, topic: Text)
    requires AllOf(topic, batch) && (e.Receive? ==> e.m.topic == topic)
    ensures KeepsTopic(topic, Iteration(config, batch, e))
  {
    match e
    case Tick(sendOk) => FlushOneTopic(batch, sendOk, topic);
    case Stop(sendOk) => FlushOneTopic(batch, sendOk, topic);
    case Receive(m, overflowOk, fullOk) =>
      FlushOneTopic(batch, overflowOk, topic);
      var room := MakeRoom(config, batch, m, overflowOk);
      if Admits(config, room.batch, m) {
        FlushOneTopic(room.batch + [m], fullOk, topic);
        KeepsTopicThen(topic, room, FlushIfFull(config, room.batch + [m], fullOk));
      } else {
        KeepsTopicThen(topic, room, Outcome(room.batch, [], [Refusal(config, room.batch)]));
      }
  }

  lemma KeepsTopicThen(topic: Text, first: Outcome, next: Outcome)
    requires KeepsTopic(topic, first) && KeepsTopic(topic, next)
    ensures KeepsTopic(topic, first.Then(next))
  {
  }

  lemma FlushOneTopic(batch: seq<Message>, sendOk: bool, topic: Text)
    requires AllOf(topic, batch)
    ensures KeepsTopic(topic, Flushed(batch, sendOk)) && KeepsTopic(topic, Idle(batch))
  {
    assert SameTopic(batch);
  }

  lemma {:induction false} NextOneTopic(config: Config, s: System, step: Step, topic: Text)
    requires OneTopicSoFar(topic, s)
    ensures OneTopicSoFar(topic, Next(config, s, step))
  {
    var next := Next(config, s, step);
    if Enabled(config, s, step) && AllOf(topic, next.p.accepted) {
      assert s.p.accepted <= next.p.accepted;
      assert AllOf(topic, s.p.accepted) by {
        forall i | 0 <= i < |s.p.accepted| ensures s.p.accepted[i].topic == topic {
          assert s.p.accepted[i] == next.p.accepted[i];
        }
      }
      match step
      case Send(m) => assert next.p.accepted[|s.p.accepted|] == m;
      case Handoff(m, overflowOk, fullOk) =>
        assert next.p.accepted[|s.p.accepted|] == m;
        IterationOneTopic(config, s.p.batch, Receive(m, overflowOk, fullOk), topic);
      case TakeMessage(overflowOk, fullOk) =>
        IterationOneTopic(config, s.p.batch, Receive(s.sendCh[0], overflowOk, fullOk), topic);
      case TakeTick(sendOk) => IterationOneTopic(config, s.p.batch, Tick(sendOk), topic);
      case TakeClose(sendOk) => IterationOneTopic(config, s.p.batch, Stop(sendOk), topic);
      case _ =>
    }
  }

  lemma {:induction false} RunOneTopic(config: Config, s: System, steps: seq<Step>, topic: Text)
    requires OneTopicSoFar(topic, s)
    ensures OneTopicSoFar(topic, Exec(config, s, steps))
    decreases |steps|
  {
    if steps != [] {
      NextOneTopic(config, s, steps[0], topic);
      RunOneTopic(config, Next(config, s, steps[0]), steps[1..], topic);
    }
  }

  /** The converse of the trap: while all accepted messages share a topic, the topic check never
      rejects a batch. */
  lemma {:induction false} OneTopicNeverRejected(config: Config, steps: seq<Step>, topic: Text)
    requires AllOf(topic, Exec(config, Start(), steps).p.accepted)
    ensures MixedTopics !in Exec(config, Start(), steps).p.emitted
  {
    RunOneTopic(config, Start(), steps, topic);
  }

  /** The callers only ever send these messages. */
  ghost predicate FromPool(pool: set<Message>, s: System) {
    forall m :: m in s.p.accepted ==> m in pool
  }

  /** What a caller can check before sending: b may be added to a batch that holds a of another topic. */
  predicate CanMix(config: Config, a: Message, b: Message) {
    a.topic != b.topic && config.batchSize >= 2 && a.Size() + |b.body| <= config.batchBytes
  }

  ghost predicate MixedRun(config: Config, pool: set<Message>, steps: seq<Step>) {
    var s := Exec(config, Start(), steps);
    FromPool(pool, s) && !SameTopic(s.p.batch)
  }

  ghost predicate RejectedRun(config: Config, pool: set<Message>, steps: seq<Step>) {
    var s := Exec(config, Start(), steps);
    FromPool(pool, s) && MixedTopics in s.p.emitted
  }

  lemma {:induction false} SizeOfFirst(batch: seq<Message>)
    requires batch != []
    ensures SizeOf(batch) >= batch[0].Size()
    decreases |batch|
  {
    if |batch| > 1 {
      SizeOfFirst(batch[..|batch| - 1]);
    }
  }

  /** In a mixed batch a later message was admitted on top of the first one of another topic. */
  lemma {:induction false} MixedPair(config: Config, batch: seq<Message>) returns (a: Message, b: Message)
    requires Admissible(config, batch) && !SameTopic(batch)
    ensures a in batch && b in batch && CanMix(config, a, b)
  {
    var k :| 0 <= k < |batch| && batch[k].topic != batch[0].topic;
    a, b := batch[0], batch[k];
    SizeOfFirst(batch[..k]);
    assert Admits(config, batch[..k], batch[k]);
  }

  /** The topic check has failed only if the current batch is mixed, since that batch never leaves. */
  lemma {:induction false} NextRejected(config: Config, s: System, step: Step)
    requires MixedTopics in s.p.emitted ==> !SameTopic(s.p.batch)
    ensures var t := Next(config, s, step);
            MixedTopics in t.p.emitted ==> !SameTopic(t.p.batch)
  {
    var events := EventOf(config, s, step);
    if !SameTopic(s.p.batch) {
      NextMixed(config, s, step);
    } else if events != [] && MixedTopics in Iteration(config, s.p.batch, events[0]).errors {
      RejectedBatch(config, s.p.batch, events[0]);
    }
  }

  lemma {:induction false} RejectedBatch(config: Config, batch: seq<Message>, e: Event)
    requires MixedTopics in Iteration(config, batch, e).errors
    ensures !SameTopic(Iteration(config, batch, e).batch)
  {
    if e.Receive? && SameTopic(batch) {
      var room := MakeRoom(config, batch, e.m, e.overflowOk);
      assert MixedTopics !in room.errors;
    }
  }

  lemma {:induction false} RunRejected(config: Config, s: System, steps: seq<Step>)
    requires MixedTopics in s.p.emitted ==> !SameTopic(s.p.batch)
    ensures var t := Exec(config, s, steps);
            MixedTopics in t.p.emitted ==> !SameTopic(t.p.batch)
    decreases |steps|
  {
    if steps != [] {
      NextRejected(config, s, steps[0]);
      RunRejected(config, Next(config, s, steps[0]), steps[1..]);
    }
  }

  /** Two such messages, accepted one after the other, make a mixed batch; the next tick rejects it. */
  lemma {:induction false} MixingRun(config: Config, pool: set<Message>, a: Message, b: Message)
    requires a in pool && b in pool && CanMix(config, a, b)
    ensures MixedRun(config, pool, TakingOne(a) + TakingOne(b))
    ensures RejectedRun(config, pool, TakingOne(a) + TakingOne(b) + [TakeTick(true)])
  {
    var mixing := TakingOne(a) + TakingOne(b);
    TakenTwo(config, a, b);
    var t := Exec(config, Start(), mixing);
    assert [a, b][0].topic != [a, b][1].topic;
    ExecAppend(config, Start(), mixing, [TakeTick(true)]);
    ExecUnfold(config, t, TakeTick(true), []);
    assert [TakeTick(true)] + [] == [TakeTick(true)];
    var u := Next(config, t, TakeTick(true));
    assert u.p.emitted == t.p.emitted + [MixedTopics] && u.p.accepted == t.p.accepted;
    assert u.p.emitted[|t.p.emitted|] == MixedTopics;
  }

  lemma {:induction false} BatchFromPool(config: Config, pool: set<Message>, steps: seq<Step>, m: Message)
    requires FromPool(pool, Exec(config, Start(), steps)) && m in Exec(config, Start(), steps).p.batch
    ensures m in pool
  {
    Conservation(config, steps);
    var p := Exec(config, Start(), steps).p;
    assert m in multiset(p.batch);
    assert m in multiset(p.accepted);
  }

  /** Exactly when callers can fall into the trap: from the messages of a pool some run builds a mixed
      batch, and some run has the topic check fail, if and only if the pool holds two messages of
      which the second still fits on top of the first. */
  lemma {:induction false} MixedExactly(config: Config, pool: set<Message>)
    ensures (exists steps :: MixedRun(config, pool, steps)) <==>
            exists a, b :: a in pool && b in pool && CanMix(config, a, b)
    ensures (exists steps :: RejectedRun(config, pool, steps)) <==>
            exists a, b :: a in pool && b in pool && CanMix(config, a, b)
  {
    forall steps | MixedRun(config, pool, steps)
      ensures exists a, b :: a in pool && b in pool && CanMix(config, a, b)
    {
      Limits(config, steps);
      var a, b := MixedPair(config, Exec(config, Start(), steps).p.batch);
      BatchFromPool(config, pool, steps, a);
      BatchFromPool(config, pool, steps, b);
    }
    forall steps | RejectedRun(config, pool, steps) ensures MixedRun(config, pool, steps) {
      RunRejected(config, Start(), steps);
    }
    if a, b :| a in pool && b in pool && CanMix(config, a, b) {
      MixingRun(config, pool, a, b);
    }
  }

  // ---------------------------------------------------------------------------------------------
  // Back-pressure
  // ---------------------------------------------------------------------------------------------

  predicate LoopStep(step: Step) {
    step.TakeMessage? || step.TakeTick? || step.TakeClose? || step.PushError?
  }

  /** An error is in errCh and another is waiting to be put there. */
  predicate Blocked(s: System) {
    s.drained < s.pushed < |s.p.emitted|
  }

  /** Until it has closed, the loop is stuck exactly when one error is buffered and another due. */
  lemma {:induction false} StuckExactlyWhenBlocked(config: Config, s: System)
    requires WithinLimits(config, s) && !Closed(s)
    ensures Blocked(s) <==> forall step :: LoopStep(step) ==> !Enabled(config, s, step)
  {
    if !Blocked(s) {
      if AtSelect(s) {
        assert Enabled(config, s, TakeTick(true));
      } else {
        assert Enabled(config, s, PushError);
      }
    }
  }

  /** While nobody reads the errors the block is permanent: the batch, what was sent, what was
      received and the errors stay as they are; only sendCh fills, up to its capacity. */
  lemma {:induction false} BlockedForever(config: Config, s: System, steps: seq<Step>)
    requires Blocked(s) && |s.sendCh| <= 2 * config.batchSize
    requires forall i :: 0 <= i < |steps| ==> !steps[i].DrainError?
    ensures var t := Exec(config, s, steps);
            && t.p == s.p.(accepted := t.p.accepted)
            && t.pushed == s.pushed && t.drained == s.drained
            && s.sendCh <= t.sendCh && |t.sendCh| <= 2 * config.batchSize
    decreases |steps|
  {
    if steps != [] {
      BlockedForever(config, Next(config, s, steps[0]), steps[1..]);
    }
  }

  /** Counts the iterations that received a message. */
  function Received(config: Config, s: System, steps: seq<Step>): nat
    decreases |steps|
  {
    if steps == [] then 0
    else
      (if steps[0].TakeMessage? && Enabled(config, s, steps[0]) then 1 else 0)
      + Received(config, Next(config, s, steps[0]), steps[1..])
  }

  /** Without further sends, each message iteration uses up one queued message: so after Close at
      most |sendCh| of them can come before the final flush. */
  lemma {:induction false} QueueBoundsIterations(config: Config, s: System, steps: seq<Step>)
    requires forall i :: 0 <= i < |steps| ==> !steps[i].Send? && !steps[i].Handoff?
    ensures Received(config, s, steps) + |Exec(config, s, steps).sendCh| == |s.sendCh|
    decreases |steps|
  {
    if steps != [] {
      QueueBoundsIterations(config, Next(config, s, steps[0]), steps[1..]);
    }
  }

  /** Close is never lost: from any state in which it has been requested, reading the errors lets the
      loop take the close case and finish, without receiving another message. */
  lemma {:induction false} CloseCanFinish(config: Config, s: System) returns (steps: seq<Step>)
    requires WithinLimits(config, s) && s.closing
    ensures Closed(Exec(config, s, steps))
    ensures forall i :: 0 <= i < |steps| ==> steps[i] in {PushError, DrainError, TakeClose(true)}
    decreases if s.p.stopped then 0 else 1, |s.p.emitted| - s.pushed, s.pushed - s.drained
  {
    if Closed(s) {
      return [];
    }
    var step := if s.pushed == |s.p.emitted| then TakeClose(true)
                else if s.pushed == s.drained then PushError else DrainError;
    NextWithinLimits(config, s, step);
    var rest := CloseCanFinish(config, Next(config, s, step));
    steps := [step] + rest;
    ExecUnfold(config, s, step, rest);
  }
}

/**
 The run loop packs optimally. As long as it reports no error and bodies are non-empty, cutting the
 message sequence any other way AddMessage would allow needs at least as many batches as the loop
 starts, up to one extra batch per tick that cut a batch short. Messages may be of any topics: what
 matters is that no batch the loop tried to send mixed them.
 */
module Greedy {
  import opened Batching
  import opened BatchRuns
  import opened BatchLimits

  predicate NonEmpty(ms: seq<Message>) {
    forall i :: 0 <= i < |ms| ==> ms[i].body != []
  }

  /** A way of cutting `ms` into consecutive batches, each of which AddMessage would have built. */
  ghost predicate Partition(config: Config, parts: seq<seq<Message>>, ms: seq<Message>) {
    Flatten(parts) == ms && forall i :: 0 <= i < |parts| ==> Admissible(config, parts[i])
  }

  function Open(batch: seq<Message>): nat {
    if batch == [] then 0 else 1
  }

  /** The batches started so far. */
  function Started(p: Producer): nat {
    |p.sent| + Open(p.batch)
  }

  predicate SuffixOf(b: seq<Message>, pre: seq<Message>) {
    |b| <= |pre| && pre[|pre| - |b|..] == b
  }

  /** Whether the loop may still have to start a batch for `rest`, the remainder of a part whose
      beginning `pre` has been received: not if the current batch began inside that part. */
  function Due(batch: seq<Message>, pre: seq<Message>, rest: seq<Message>): nat {
    if rest == [] || (batch != [] && SuffixOf(batch, pre)) then 0 else 1
  }

  /** Admissibility is closed under dropping messages from the front. */
  lemma {:induction false} SuffixAdmits(config: Config, b: seq<Message>, pre: seq<Message>, m: Message)
    requires SuffixOf(b, pre) && Admits(config, pre, m)
    ensures Admits(config, b, m)
  {
    assert pre == pre[..|pre| - |b|] + b;
    SizeOfAppend(pre[..|pre| - |b|], b);
  }

  lemma AdmissibleNext(config: Config, pre: seq<Message>, rest: seq<Message>)
    requires rest != [] && Admissible(config, pre + rest)
    ensures Admits(config, pre, rest[0])
  {
    assert (pre + rest)[..|pre|] == pre && (pre + rest)[|pre|] == rest[0];
  }

  /** Eager flushing loses nothing: a batch that is full could not have taken the next message. */
  lemma {:induction false} FullOnlyAtEnd(config: Config, b: seq<Message>, pre: seq<Message>, rest: seq<Message>)
    requires SuffixOf(b, pre) && rest != [] && |rest[0].body| > 0
    requires Admissible(config, pre + rest)
    ensures !Full(config, b)
  {
    AdmissibleNext(config, pre, rest);
    SuffixAdmits(config, b, pre, rest[0]);
  }

  /** What receiving a message does when no error results: it joins the batch, or a new one if the batch
      cannot take it, and a batch that is then full is sent. */
  lemma {:induction false} ReceiveOutcome(config: Config, batch: seq<Message>, e: Event)
    requires e.Receive? && Iteration(config, batch, e).errors == []
    ensures var out := Iteration(config, batch, e);
            var joined := if Admits(config, batch, e.m) then batch + [e.m] else [e.m];
            && Kept(config, batch, e)
            && out.batch == (if Full(config, joined) then [] else joined)
            && |out.sent| + Open(out.batch) == (if Admits(config, batch, e.m) then 0 else Open(batch)) + 1
  {
    assert [] + [e.m] == [e.m];
    var room := MakeRoom(config, batch, e.m, e.overflowOk);
    assert room.errors == [];
    assert !Admits(config, batch, e.m) ==> room.batch == [];
  }

  /** A batch that has begun inside the part takes the part's next message. */
  lemma {:induction false} ContinuesPart(config: Config, batch: seq<Message>, pre: seq<Message>, rest: seq<Message>)
    requires rest != [] && Admissible(config, pre + rest) && SuffixOf(batch, pre)
    ensures Admits(config, batch, rest[0]) && SuffixOf(batch + [rest[0]], pre + [rest[0]])
  {
    AdmissibleNext(config, pre, rest);
    SuffixAdmits(config, batch, pre, rest[0]);
  }

  /** One received message never puts the loop further behind a given partition. */
  lemma {:induction false} ReceiveKeepsUp(config: Config, batch: seq<Message>, e: Event,
                                          pre: seq<Message>, rest: seq<Message>)
    requires rest != [] && NonEmpty(rest) && Admissible(config, pre + rest)
    requires e.Receive? && e.m == rest[0] && Iteration(config, batch, e).errors == []
    ensures var out := Iteration(config, batch, e);
            |out.sent| + Open(out.batch) + Due(out.batch, pre + [rest[0]], rest[1..])
            <= Open(batch) + Due(batch, pre, rest)
  {
    ReceiveOutcome(config, batch, e);
    DueKeepsUp(config, batch, pre, rest);
  }

  lemma Regroup(pre: seq<Message>, rest: seq<Message>)
    requires rest != []
    ensures pre + rest == pre + [rest[0]] + rest[1..]
  {
  }

  /** A batch is started only when one was due, or when one is no longer due afterwards. */
  lemma {:induction false} DueKeepsUp(config: Config, batch: seq<Message>, pre: seq<Message>, rest: seq<Message>)
    requires rest != [] && Admissible(config, pre + rest)
    requires NonEmpty(rest)
    ensures var m := rest[0];
            var joined := if Admits(config, batch, m) then batch + [m] else [m];
            (if Admits(config, batch, m) then 0 else Open(batch)) + 1
            + Due(if Full(config, joined) then [] else joined, pre + [m], rest[1..])
            <= Open(batch) + Due(batch, pre, rest)
  {
    var m := rest[0];
    Regroup(pre, rest);
    assert rest[1..] != [] ==> rest[1..][0] == rest[1];
    if batch != [] && SuffixOf(batch, pre) {
      ContinuesPart(config, batch, pre, rest);
      NothingDue(config, batch + [m], pre + [m], rest[1..]);
    } else if !Admits(config, batch, m) || batch == [] {
      assert [] + [m] == [m];
      NothingDue(config, [m], pre + [m], rest[1..]);
    }
  }

  /** After a message of a part has joined a batch begun inside it, no batch is due: if the batch was
      full and sent, the part is over. */
  lemma {:induction false} NothingDue(config: Config, joined: seq<Message>, pre: seq<Message>, rest: seq<Message>)
    requires joined != [] && SuffixOf(joined, pre) && Admissible(config, pre + rest)
    requires rest != [] ==> |rest[0].body| > 0
    ensures Due(if Full(config, joined) then [] else joined, pre, rest) == 0
  {
    if rest != [] {
      FullOnlyAtEnd(config, joined, pre, rest);
    }
  }

  function ReceivedBy(config: Config, s: System, step: Step): seq<Message> {
    if !Enabled(config, s, step) then []
    else
      match step
      case Handoff(m, _, _) => [m]
      case TakeMessage(_, _) => [s.sendCh[0]]
      case _ => []
  }

  /** The messages the loop receives during a run. */
  function Incoming(config: Config, s: System, steps: seq<Step>): seq<Message>
    decreases |steps|
  {
    if steps == [] then []
    else ReceivedBy(config, s, steps[0]) + Incoming(config, Next(config, s, steps[0]), steps[1..])
  }

  ghost predicate AllKept(kept: seq<bool>) {
    forall i :: 0 <= i < |kept| ==> kept[i]
  }

  lemma {:induction false} FlattenCons(part: seq<Message>, parts: seq<seq<Message>>)
    ensures Flatten([part] + parts) == part + Flatten(parts)
  {
    FlattenAppend([part], parts);
    FlattenSnoc([], part);
    assert [] + [part] == [part];
  }

  lemma {:induction false} EmittedGrows(config: Config, s: System, steps: seq<Step>)
    ensures s.p.emitted <= Exec(config, s, steps).p.emitted
    decreases |steps|
  {
    if steps != [] {
      EmittedGrows(config, Next(config, s, steps[0]), steps[1..]);
    }
  }

  /** A step that receives nothing starts no batch; only a tick that flushes may make one due. */
  lemma {:induction false} OtherStepKeepsUp(config: Config, s: System, step: Step,
                                            pre: seq<Message>, rest: seq<Message>)
    requires Next(config, s, step).p.emitted == []
    requires !Enabled(config, s, step) || !(step.Handoff? || step.TakeMessage?)
    requires step.TakeClose? && Enabled(config, s, step) ==> rest == []
    ensures var next := Next(config, s, step);
            && ReceivedBy(config, s, step) == []
            && Started(next.p) + Due(next.p.batch, pre, rest) + s.p.tickFlushes
               <= Started(s.p) + Due(s.p.batch, pre, rest) + next.p.tickFlushes
  {
  }

  lemma {:induction false} ReceivingStep(config: Config, s: System, step: Step, m: Message) returns (e: Event)
    requires ReceivedBy(config, s, step) == [m] && Next(config, s, step).p.emitted == []
    ensures var p, q := s.p, Next(config, s, step).p;
            && e.Receive? && e.m == m && Iteration(config, p.batch, e).errors == []
            && q.batch == Iteration(config, p.batch, e).batch
            && q.sent == p.sent + Iteration(config, p.batch, e).sent
            && q.kept == p.kept + [true]
            && q.tickFlushes == p.tickFlushes
  {
    e := EventOf(config, s, step)[0];
    assert e.m == [e.m][0] == [m][0];
    assert Iteration(config, s.p.batch, e).errors == [] by {
      assert s.p.emitted + Iteration(config, s.p.batch, e).errors == [];
    }
    ReceiveOutcome(config, s.p.batch, e);
  }

  /** A run without errors drops nothing. */
  lemma {:induction false} NothingDropped(config: Config, s: System, steps: seq<Step>)
    requires Exec(config, s, steps).p.emitted == [] && AllKept(s.p.kept)
    ensures AllKept(Exec(config, s, steps).p.kept)
    decreases |steps|
  {
    if steps != [] {
      var received := ReceivedBy(config, s, steps[0]);
      EmittedGrows(config, Next(config, s, steps[0]), steps[1..]);
      if received != [] {
        assert received == [received[0]];
        var e := ReceivingStep(config, s, steps[0], received[0]);
      }
      NothingDropped(config, Next(config, s, steps[0]), steps[1..]);
    }
  }

  lemma NonEmptyParts(a: seq<Message>, b: seq<Message>)
    requires a != [] && NonEmpty(a + b)
    ensures NonEmpty(a) && NonEmpty(a[1..] + b)
  {
    assert forall i :: 0 <= i < |a| ==> a[i] == (a + b)[i];
    assert forall i :: 0 <= i < |a[1..] + b| ==> (a[1..] + b)[i] == (a + b)[i + 1];
  }

  /** What is still to be received is `rest`, the remainder of a part that began with `pre`, followed
      by the parts of `tail`. */
  ghost predicate Ahead(config: Config, s: System, steps: seq<Step>,
                        pre: seq<Message>, rest: seq<Message>, tail: seq<seq<Message>>) {
    && Exec(config, s, steps).p.emitted == []
    && Incoming(config, s, steps) == rest + Flatten(tail)
    && NonEmpty(rest + Flatten(tail))
    && Admissible(config, pre + rest) && forall i :: 0 <= i < |tail| ==> Admissible(config, tail[i])
  }

  lemma SameHead(first: seq<Message>, others: seq<Message>, rest: seq<Message>, flat: seq<Message>)
    requires |first| == 1 && rest != [] && first + others == rest + flat
    ensures first == [rest[0]] && others == rest[1..] + flat
  {
    assert first[0] == (first + others)[0] == (rest + flat)[0];
    assert others == (first + others)[1..] == (rest + flat)[1..] == rest[1..] + flat;
  }

  /** The message a step receives is the next one of the part. */
  lemma {:induction false} NextOfPart(config: Config, s: System, steps: seq<Step>,
                                      rest: seq<Message>, flat: seq<Message>)
    requires steps != [] && rest != [] && Incoming(config, s, steps) == rest + flat
    requires Enabled(config, s, steps[0]) && (steps[0].Handoff? || steps[0].TakeMessage?)
    ensures ReceivedBy(config, s, steps[0]) == [rest[0]]
    ensures Incoming(config, Next(config, s, steps[0]), steps[1..]) == rest[1..] + flat
  {
    SameHead(ReceivedBy(config, s, steps[0]), Incoming(config, Next(config, s, steps[0]), steps[1..]), rest, flat);
  }

  lemma {:induction false} ReceivingKeepsUp(config: Config, s: System, step: Step,
                                            pre: seq<Message>, rest: seq<Message>)
    requires rest != [] && ReceivedBy(config, s, step) == [rest[0]] && Next(config, s, step).p.emitted == []
    requires NonEmpty(rest) && Admissible(config, pre + rest)
    ensures var next := Next(config, s, step);
            && Started(next.p) + Due(next.p.batch, pre + [rest[0]], rest[1..])
               <= Started(s.p) + Due(s.p.batch, pre, rest)
            && next.p.tickFlushes == s.p.tickFlushes
  {
    var e := ReceivingStep(config, s, step, rest[0]);
    ReceiveKeepsUp(config, s.p.batch, e, pre, rest);
  }

  /** Receiving the next message of a part. */
  lemma {:induction false} ReceiveAhead(config: Config, s: System, steps: seq<Step>,
                                        pre: seq<Message>, rest: seq<Message>, tail: seq<seq<Message>>)
    requires Ahead(config, s, steps, pre, rest, tail) && steps != [] && rest != []
    requires Enabled(config, s, steps[0]) && (steps[0].Handoff? || steps[0].TakeMessage?)
    ensures var next := Next(config, s, steps[0]);
            && Ahead(config, next, steps[1..], pre + [rest[0]], rest[1..], tail)
            && Started(next.p) + Due(next.p.batch, pre + [rest[0]], rest[1..])
               <= Started(s.p) + Due(s.p.batch, pre, rest)
            && next.p.tickFlushes == s.p.tickFlushes
  {
    NextOfPart(config, s, steps, rest, Flatten(tail));
    NonEmptyParts(rest, Flatten(tail));
    EmittedGrows(config, Next(config, s, steps[0]), steps[1..]);
    ReceivingKeepsUp(config, s, steps[0], pre, rest);
    Regroup(pre, rest);
  }

  /** The exchange argument, along a run: the batches started from here on are no more than the parts
      to come, the one that may be due for `rest`, and one for each tick that flushes. */
  lemma {:induction false} KeepsUp(config: Config, s: System, steps: seq<Step>,
                                   pre: seq<Message>, rest: seq<Message>, tail: seq<seq<Message>>)
    requires Ahead(config, s, steps, pre, rest, tail)
    ensures var t := Exec(config, s, steps);
            Started(t.p) + s.p.tickFlushes
            <= Started(s.p) + t.p.tickFlushes + |tail| + Due(s.p.batch, pre, rest)
    decreases |steps|, |tail|
  {
    if steps == [] {
      return;
    }
    var step := steps[0];
    var next := Next(config, s, step);
    if !Enabled(config, s, step) || !(step.Handoff? || step.TakeMessage?) {
      OtherAhead(config, s, steps, pre, rest, tail);
      KeepsUp(config, next, steps[1..], pre, rest, tail);
    } else if rest == [] {
      NextPart(config, s, steps, tail);
      assert [] + tail[0] == tail[0];
      KeepsUp(config, s, steps, [], tail[0], tail[1..]);
    } else {
      ReceiveAhead(config, s, steps, pre, rest, tail);
      KeepsUp(config, next, steps[1..], pre + [rest[0]], rest[1..], tail);
    }
  }

  /** Any other step. */
  lemma {:induction false} OtherAhead(config: Config, s: System, steps: seq<Step>,
                                      pre: seq<Message>, rest: seq<Message>, tail: seq<seq<Message>>)
    requires Ahead(config, s, steps, pre, rest, tail) && steps != []
    requires !Enabled(config, s, steps[0]) || !(steps[0].Handoff? || steps[0].TakeMessage?)
    ensures var next := Next(config, s, steps[0]);
            && Ahead(config, next, steps[1..], pre, rest, tail)
            && Started(next.p) + Due(next.p.batch, pre, rest) + s.p.tickFlushes
               <= Started(s.p) + Due(s.p.batch, pre, rest) + next.p.tickFlushes
  {
    if steps[0].TakeClose? && Enabled(config, s, steps[0]) {
      StoppedReceivesNothing(config, Next(config, s, steps[0]), steps[1..]);
    }
    EmittedGrows(config, Next(config, s, steps[0]), steps[1..]);
    OtherStepKeepsUp(config, s, steps[0], pre, rest);
  }

  lemma {:induction false} StoppedReceivesNothing(config: Config, s: System, steps: seq<Step>)
    requires s.p.stopped
    ensures Incoming(config, s, steps) == []
    decreases |steps|
  {
    if steps != [] {
      StoppedReceivesNothing(config, Next(config, s, steps[0]), steps[1..]);
    }
  }

  lemma {:induction false} NextPart(config: Config, s: System, steps: seq<Step>, tail: seq<seq<Message>>)
    requires steps != [] && ReceivedBy(config, s, steps[0]) != []
    requires Incoming(config, s, steps) == [] + Flatten(tail)
    ensures tail != [] && [] + Flatten(tail) == tail[0] + Flatten(tail[1..])
  {
    assert [] + Flatten(tail) == Flatten(tail);
    assert tail == [tail[0]] + tail[1..];
    FlattenCons(tail[0], tail[1..]);
  }

  lemma {:induction false} NextReceives(config: Config, s: System, step: Step)
    requires Conserved(s)
    ensures var t := Next(config, s, step);
            && s.p.accepted <= t.p.accepted
            && |s.p.kept| <= |t.p.kept| <= |t.p.accepted|
            && ReceivedBy(config, s, step) == t.p.accepted[|s.p.kept|..|t.p.kept|]
  {
    NextConserves(config, s, step);
    var t, n := Next(config, s, step), |s.p.kept|;
    if |t.p.kept| == n + 1 {
      assert t.p.accepted[n..n + 1] == [t.p.accepted[n]];
      assert t.p.accepted[n] == if step.Handoff? then step.m else s.sendCh[0];
    } else {
      assert ReceivedBy(config, s, step) == [];
    }
  }

  lemma JoinSlices(a: seq<Message>, b: seq<Message>, i: nat, j: nat, k: nat)
    requires a <= b && i <= j <= |a| && j <= k <= |b|
    ensures a[i..j] + b[j..k] == b[i..k]
  {
    assert a[i..j] == b[i..j];
  }

  lemma {:induction false} IncomingIsReceived(config: Config, s: System, steps: seq<Step>)
    requires Conserved(s)
    ensures var t := Exec(config, s, steps);
            && s.p.accepted <= t.p.accepted
            && |s.p.kept| <= |t.p.kept| <= |t.p.accepted|
            && Incoming(config, s, steps) == t.p.accepted[|s.p.kept|..|t.p.kept|]
    decreases |steps|
  {
    if steps != [] {
      var next := Next(config, s, steps[0]);
      var t := Exec(config, next, steps[1..]);
      NextConserves(config, s, steps[0]);
      NextReceives(config, s, steps[0]);
      IncomingIsReceived(config, next, steps[1..]);
      JoinSlices(next.p.accepted, t.p.accepted, |s.p.kept|, |next.p.kept|, |t.p.kept|);
    } else {
      assert Exec(config, s, steps) == s;
    }
  }

  lemma {:induction false} ChosenAll(ms: seq<Message>, kept: seq<bool>)
    requires |kept| <= |ms| && AllKept(kept)
    ensures Chosen(ms, kept, true) == ms[..|kept|]
    decreases |kept|
  {
    if kept != [] {
      ChosenAll(ms, kept[..|kept| - 1]);
    }
  }

  /** What the loop has received in a run from the start. */
  function ReceivedIn(config: Config, steps: seq<Step>): seq<Message> {
    Incoming(config, Start(), steps)
  }

  /** How often the loop took the tick. */
  function Ticks(steps: seq<Step>): nat {
    if steps == [] then 0 else (if steps[0].TakeTick? then 1 else 0) + Ticks(steps[1..])
  }

  lemma {:induction false} TickFlushesBounded(config: Config, s: System, steps: seq<Step>)
    ensures Exec(config, s, steps).p.tickFlushes <= s.p.tickFlushes + Ticks(steps)
    decreases |steps|
  {
    if steps != [] {
      TickFlushesBounded(config, Next(config, s, steps[0]), steps[1..]);
    }
  }

  /** Near-optimality at every moment of every run without errors: the batches started for the
      messages received so far are at most the parts of any admissible partition of those messages,
      plus the ticks that flushed a batch. No error means that every send succeeded, no batch sent
      mixed topics and every message fitted; nothing was dropped. */
  lemma {:induction false} NearOptimal(config: Config, steps: seq<Step>, parts: seq<seq<Message>>)
    requires Exec(config, Start(), steps).p.emitted == []
    requires NonEmpty(ReceivedIn(config, steps)) && Partition(config, parts, ReceivedIn(config, steps))
    ensures var p := Exec(config, Start(), steps).p;
            && |p.kept| <= |p.accepted| && ReceivedIn(config, steps) == p.accepted[..|p.kept|] && AllKept(p.kept)
            && Started(p) <= |parts| + p.tickFlushes && p.tickFlushes <= Ticks(steps)
  {
    TickFlushesBounded(config, Start(), steps);
    IncomingIsReceived(config, Start(), steps);
    NothingDropped(config, Start(), steps);
    assert [] + Flatten(parts) == Flatten(parts);
    KeepsUp(config, Start(), steps, [], [], parts);
  }

  /** Optimality: with no batch cut short by a tick, and nothing left in the batch, the batches sent
      are themselves an admissible partition of what was received, and no such partition is
      shorter. */
  lemma {:induction false} Optimal(config: Config, steps: seq<Step>)
    requires var p := Exec(config, Start(), steps).p;
             p.emitted == [] && p.tickFlushes == 0 && p.batch == []
    requires NonEmpty(ReceivedIn(config, steps))
    ensures var p := Exec(config, Start(), steps).p;
            && Partition(config, p.sent, ReceivedIn(config, steps))
            && forall parts :: Partition(config, parts, ReceivedIn(config, steps)) ==> |p.sent| <= |parts|
  {
    var p := Exec(config, Start(), steps).p;
    forall parts | Partition(config, parts, ReceivedIn(config, steps)) ensures |p.sent| <= |parts| {
      NearOptimal(config, steps, parts);
    }
    Limits(config, steps);
    RunConserves(config, Start(), steps);
    IncomingIsReceived(config, Start(), steps);
    NothingDropped(config, Start(), steps);
    ChosenAll(p.accepted, p.kept);
    assert Flatten(p.sent) + [] == Flatten(p.sent);
  }

  // ---------------------------------------------------------------------------------------------
  // Messages of one topic
  // ---------------------------------------------------------------------------------------------

  predicate AllSucceed(steps: seq<Step>) {
    forall i :: 0 <= i < |steps| ==>
      match steps[i]
      case Handoff(_, overflowOk, fullOk) => overflowOk && fullOk
      case TakeMessage(overflowOk, fullOk) => overflowOk && fullOk
      case TakeTick(sendOk) => sendOk
      case TakeClose(sendOk) => sendOk
      case _ => true
  }

  /** Messages of one topic whose bodies are non-empty and fit a batch on their own. */
  predicate Packable(config: Config, topic: Text, ms: seq<Message>) {
    config.batchSize > 0 &&
    forall i :: 0 <= i < |ms| ==> ms[i].topic == topic && 0 < |ms[i].body| <= config.batchBytes
  }

  predicate SendsSucceed(e: Event) {
    match e
    case Receive(_, overflowOk, fullOk) => overflowOk && fullOk
    case Tick(sendOk) => sendOk
    case Stop(sendOk) => sendOk
  }

  lemma {:induction false} OneTopicIteration(config: Config, topic: Text, batch: seq<Message>, e: Event)
    requires SendsSucceed(e) && AllOf(topic, batch) && (e.Receive? ==> Packable(config, topic, [e.m]))
    ensures Iteration(config, batch, e).errors == [] && AllOf(topic, Iteration(config, batch, e).batch)
  {
    assert SameTopic(batch);
    if e.Receive? {
      assert [e.m][0].topic == topic && 0 < |[e.m][0].body| <= config.batchBytes;
      assert SizeOf([]) == 0 && [] + [e.m] == [e.m];
      assert AllOf(topic, batch + [e.m]) && SameTopic(batch + [e.m]);
      assert AllOf(topic, [e.m]) && SameTopic([e.m]);
    }
  }

  lemma {:induction false} OneTopicStep(config: Config, topic: Text, s: System, step: Step)
    requires AllSucceed([step]) && s.p.emitted == [] && AllOf(topic, s.p.batch)
    requires ReceivedBy(config, s, step) != [] ==> Packable(config, topic, ReceivedBy(config, s, step))
    ensures Next(config, s, step).p.emitted == [] && AllOf(topic, Next(config, s, step).p.batch)
  {
    var events := EventOf(config, s, step);
    if events != [] {
      assert SendsSucceed(events[0]) by {
        assert match [step][0]
               case Handoff(_, overflowOk, fullOk) => overflowOk && fullOk
               case TakeMessage(overflowOk, fullOk) => overflowOk && fullOk
               case TakeTick(sendOk) => sendOk
               case TakeClose(sendOk) => sendOk
               case _ => true;
      }
      OneTopicIteration(config, topic, s.p.batch, events[0]);
    }
  }

  /** When all sends succeed, packable messages cause no error. */
  lemma {:induction false} OneTopicNoErrors(config: Config, topic: Text, s: System, steps: seq<Step>)
    requires AllSucceed(steps) && s.p.emitted == [] && AllOf(topic, s.p.batch)
    requires Packable(config, topic, Incoming(config, s, steps))
    ensures Exec(config, s, steps).p.emitted == []
    decreases |steps|
  {
    if steps != [] {
      var received := ReceivedBy(config, s, steps[0]);
      var incoming := Incoming(config, Next(config, s, steps[0]), steps[1..]);
      assert forall i :: 0 <= i < |received| ==> received[i] == (received + incoming)[i];
      assert forall i :: 0 <= i < |incoming| ==> incoming[i] == (received + incoming)[|received| + i];
      OneTopicStep(config, topic, s, steps[0]);
      OneTopicNoErrors(config, topic, Next(config, s, steps[0]), steps[1..]);
    }
  }

  /** So for messages of one topic it is enough that all sends succeed and that bodies are non-empty
      and fit. */
  lemma {:induction false} OneTopicOptimal(config: Config, topic: Text, steps: seq<Step>)
    requires AllSucceed(steps) && Packable(config, topic, ReceivedIn(config, steps))
    ensures var p := Exec(config, Start(), steps).p;
            && p.emitted == [] && AllKept(p.kept)
            && (forall parts :: Partition(config, parts, ReceivedIn(config, steps)) ==>
                  Started(p) <= |parts| + p.tickFlushes)
            && (p.tickFlushes == 0 && p.batch == [] ==> Partition(config, p.sent, ReceivedIn(config, steps)))
  {
    OneTopicNoErrors(config, topic, Start(), steps);
    NothingDropped(config, Start(), steps);
    var p := Exec(config, Start(), steps).p;
    forall parts | Partition(config, parts, ReceivedIn(config, steps)) ensures Started(p) <= |parts| + p.tickFlushes {
      NearOptimal(config, steps, parts);
    }
    if p.tickFlushes == 0 && p.batch == [] {
      Optimal(config, steps);
    }
  }

  // ---------------------------------------------------------------------------------------------
  // Empty bodies
  // ---------------------------------------------------------------------------------------------

  /** Exactly when the eager flush sends a batch that could still have taken a message: it is filled
      to the byte and the message has an empty body. */
  lemma {:induction false} FlushedTooSoonExactly(config: Config, batch: seq<Message>, m: Message)
    ensures Full(config, batch) && Admits(config, batch, m) <==>
            |batch| < config.batchSize && SizeOf(batch) == config.batchBytes && m.body == []
  {
  }

  /** The hypothesis that bodies are non-empty is needed: whenever a message fills an empty batch
      exactly and one with an empty body follows, the eager flush sends two batches where AddMessage
      would have allowed one. */
  lemma {:induction false} EmptyBodiesDefeatOptimality(config: Config, a: Message, b: Message)
    requires config.batchSize > 1 && a.Size() == config.batchBytes > 0
    requires b.body == [] && a.topic == b.topic && b.Size() < config.batchBytes
    ensures Iteration(config, [], Receive(a, true, true)) == Outcome([], [[a]], [])
    ensures Iteration(config, [], Receive(b, true, true)) == Outcome([b], [], [])
    ensures Iteration(config, [b], Stop(true)) == Outcome([], [[b]], [])
    ensures Partition(config, [[a, b]], [a, b])
  {
    FirstOfBatch(config, a);
    FirstOfBatch(config, b);
    assert SameTopic([b]);
    assert Admissible(config, [a, b]) by {
      SizeOfOne(a);
      assert [a, b][..0] == [] && [a, b][..1] == [a] && SizeOf([]) == 0;
    }
    FlattenSnoc([], [a, b]);
    assert [] + [[a, b]] == [[a, b]];
  }

  lemma SizeOfOne(m: Message)
    ensures SizeOf([m]) == m.Size()
  {
    assert [m][..0] == [] && SizeOf([]) == 0;
  }

  /** A message that fits is taken into an empty batch, which is sent if that fills it. */
  lemma {:induction false} FirstOfBatch(config: Config, m: Message)
    requires config.batchSize > 1 && |m.body| <= config.batchBytes
    ensures Iteration(config, [], Receive(m, true, true)) ==
            if m.Size() >= config.batchBytes then Outcome([], [[m]], []) else Outcome([m], [], [])
  {
    SizeOfOne(m);
    assert SizeOf([]) == 0 && [] + [m] == [m] && SameTopic([m]);
    assert Full(config, [m]) <==> m.Size() >= config.batchBytes;
    assert MakeRoom(config, [], m, true) == Idle([]);
  }
}

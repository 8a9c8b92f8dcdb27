/**
 The batching producer: what one batch may hold, what one iteration of the event loop does,
 and the two classes that do it. `Iteration` is the specification of the loop body; the methods
 of `BatchMessage` and `BatchProducer` are the loop body itself and are proved equal to it.

 The outcome of `SendSync` is a parameter (`sendOk`): the SDK and the broker are not modelled.
 */
module Batching {
  import opened Wrappers

  newtype byte = x: int | 0 <= x < 0x100

  /** A Go string or []byte. */
  type Text = seq<byte>

  datatype Message = Message(topic: Text, tag: Text, key: Text, body: Text) {
    /** The bytes that count once a message is in a batch but not while it is being admitted. */
    function Overhead(): nat {
      |topic| + |tag| + |key|
    }

    function Size(): nat {
      |body| + Overhead()
    }
  }

  /** A negative BatchSize makes Go's make() panic, so it is a nat; BatchBytes may be any int. */
  datatype Config = Config(batchSize: nat, batchBytes: int)

  datatype Error = CountLimit | ByteLimit | MixedTopics | SendFailed

  function SizeOf(ms: seq<Message>): nat {
    if ms == [] then 0 else SizeOf(ms[..|ms| - 1]) + ms[|ms| - 1].Size()
  }

  lemma {:induction false} SizeOfAppend(a: seq<Message>, b: seq<Message>)
    ensures SizeOf(a + b) == SizeOf(a) + SizeOf(b)
    decreases |b|
  {
    if b == [] {
      assert a + b == a;
    } else {
      var n := |b| - 1;
      assert (a + b)[..|a + b| - 1] == a + b[..n];
      SizeOfAppend(a, b[..n]);
    }
  }

  /** The size of a batch: nothing for no message, the four lengths for one, and additive. */
  lemma {:induction false} SizeAdds(m: Message, a: seq<Message>, b: seq<Message>)
    ensures SizeOf([]) == 0
    ensures SizeOf([m]) == |m.body| + |m.topic| + |m.tag| + |m.key|
    ensures SizeOf(a + b) == SizeOf(a) + SizeOf(b)
  {
    assert [m][..0] == [];
    SizeOfAppend(a, b);
  }

  predicate Admits(config: Config, batch: seq<Message>, m: Message) {
    |batch| < config.batchSize && SizeOf(batch) + |m.body| <= config.batchBytes
  }

  function Refusal(config: Config, batch: seq<Message>): Error {
    if |batch| >= config.batchSize then CountLimit else ByteLimit
  }

  predicate Full(config: Config, batch: seq<Message>) {
    |batch| >= config.batchSize || SizeOf(batch) >= config.batchBytes
  }

  predicate SameTopic(batch: seq<Message>) {
    forall i :: 0 <= i < |batch| ==> batch[i].topic == batch[0].topic
  }

  /** What flushing, or a whole iteration, leaves in the batch, hands to the broker and reports. */
  datatype Outcome = Outcome(batch: seq<Message>, sent: seq<seq<Message>>, errors: seq<Error>) {
    function Then(next: Outcome): Outcome {
      Outcome(next.batch, sent + next.sent, errors + next.errors)
    }
  }

  lemma ThenAssociates(a: Outcome, b: Outcome, c: Outcome)
    ensures a.Then(b).Then(c) == a.Then(b.Then(c))
  {
  }

  function Idle(batch: seq<Message>): Outcome {
    Outcome(batch, [], [])
  }

  function Flushed(batch: seq<Message>, sendOk: bool): Outcome {
    if batch == [] then Idle(batch)
    else if !SameTopic(batch) then Outcome(batch, [], [MixedTopics])
    else if !sendOk then Outcome(batch, [], [SendFailed])
    else Outcome([], [batch], [])
  }

  /** The case the select statement takes, with the outcomes of the sends it may make. */
  datatype Event =
    | Receive(m: Message, overflowOk: bool, fullOk: bool)
    | Tick(sendOk: bool)
    | Stop(sendOk: bool)

  /** The overflow flush: only when the first AddMessage was refused. */
  function MakeRoom(config: Config, batch: seq<Message>, m: Message, sendOk: bool): Outcome {
    if Admits(config, batch, m) then Idle(batch) else Flushed(batch, sendOk)
  }

  function FlushIfFull(config: Config, batch: seq<Message>, sendOk: bool): Outcome {
    if Full(config, batch) then Flushed(batch, sendOk) else Idle(batch)
  }

  function Iteration(config: Config, batch: seq<Message>, e: Event): Outcome {
    match e
    case Receive(m, overflowOk, fullOk) =>
      var room := MakeRoom(config, batch, m, overflowOk);
      if Admits(config, room.batch, m)
      then room.Then(FlushIfFull(config, room.batch + [m], fullOk))
      else room.Then(Outcome(room.batch, [], [Refusal(config, room.batch)]))
    case Tick(sendOk) => Flushed(batch, sendOk)
    case Stop(sendOk) => Flushed(batch, sendOk)
  }

  /** Whether a received message ends up in the batch (or in a batch just sent) rather than dropped. */
  predicate Kept(config: Config, batch: seq<Message>, e: Event)
    requires e.Receive?
  {
    Admits(config, MakeRoom(config, batch, e.m, e.overflowOk).batch, e.m)
  }

  predicate OverflowFailed(config: Config, batch: seq<Message>, e: Event) {
    e.Receive? && MakeRoom(config, batch, e.m, e.overflowOk).errors != []
  }

  /** A message is dropped exactly when it overflows the batch and either the overflow flush
      fails or the message does not fit even an empty batch. */
  lemma DropExactly(config: Config, batch: seq<Message>, e: Event)
    requires e.Receive?
    ensures !Kept(config, batch, e) <==>
            !Admits(config, batch, e.m) &&
            ((batch != [] && (!SameTopic(batch) || !e.overflowOk)) || !Admits(config, [], e.m))
  {
  }

  /** One iteration reports at most two errors; two exactly when the overflow flush failed, and
      then the batch is untouched and the message is dropped. */
  lemma ErrorsPerIteration(config: Config, batch: seq<Message>, e: Event)
    ensures var out := Iteration(config, batch, e);
            && |out.errors| <= 2
            && (|out.errors| == 2 <==> OverflowFailed(config, batch, e))
            && (OverflowFailed(config, batch, e) ==>
                  out.batch == batch && out.sent == [] && !Kept(config, batch, e))
  {
    match e
    case Tick(_) =>
    case Stop(_) =>
    case Receive(m, overflowOk, fullOk) =>
      var room := MakeRoom(config, batch, m, overflowOk);
      assert |room.errors| <= 1 && (room.errors != [] ==> room.batch == batch && !Admits(config, room.batch, m));
      assert |FlushIfFull(config, room.batch + [m], fullOk).errors| <= 1;
  }

  /** Which errors an iteration reports. A failed overflow flush reports itself and then the limit that
      m still runs into; a message too large for any batch reports that; and otherwise only a failed
      flush does, which is tried after a message exactly when that message fills its batch. */
  lemma {:induction false} ErrorsExactly(config: Config, batch: seq<Message>, e: Event)
    ensures var errors := Iteration(config, batch, e).errors;
            match e
            case Receive(m, overflowOk, fullOk) =>
              var fits := |batch| < config.batchSize && SizeOf(batch) + |m.body| <= config.batchBytes;
              var joined := if fits then batch + [m] else [m];
              if !fits && batch != [] && (!SameTopic(batch) || !overflowOk) then
                errors == [if SameTopic(batch) then SendFailed else MixedTopics,
                           if |batch| >= config.batchSize then CountLimit else ByteLimit]
              else if !fits && (config.batchSize == 0 || |m.body| > config.batchBytes) then
                errors == [if config.batchSize == 0 then CountLimit else ByteLimit]
              else if |joined| >= config.batchSize || SizeOf(joined) >= config.batchBytes then
                errors == if !SameTopic(joined) then [MixedTopics] else if !fullOk then [SendFailed] else []
              else errors == []
            case _ =>
              errors == if batch == [] then [] else if !SameTopic(batch) then [MixedTopics]
                        else if !e.sendOk then [SendFailed] else []
  {
    assert SizeOf([]) == 0;
    if e.Receive? {
      assert [] + [e.m] == [e.m];
    }
  }

  // ---------------------------------------------------------------------------------------------
  // The batch
  // ---------------------------------------------------------------------------------------------

  class BatchMessage {
    var messages: seq<Message>
    const config: Config

    constructor (config: Config)
      ensures this.config == config && messages == []
    {
      this.config := config;
      messages := [];
    }

    method CalculateBatchSize() returns (size: nat)
      ensures size == SizeOf(messages)
    {
      size := 0;
      for i := 0 to |messages|
        invariant size == SizeOf(messages[..i])
      {
        assert messages[..i + 1][..i] == messages[..i];
        size := size + |messages[i].body|;
        size := size + |messages[i].topic|;
        size := size + |messages[i].tag|;
        size := size + |messages[i].key|;
      }
      assert messages[..|messages|] == messages;
    }

    method AddMessage(m: Message) returns (err: Option<Error>)
      modifies this`messages
      ensures err.None? <==> Admits(config, old(messages), m)
      ensures err.None? <==> |old(messages)| < config.batchSize && SizeOf(old(messages)) + |m.body| <= config.batchBytes
      ensures err.None? ==> messages == old(messages) + [m]
      ensures err.Some? ==> messages == old(messages) && err.value == Refusal(config, messages)
      ensures err.Some? ==> err.value == if |messages| >= config.batchSize then CountLimit else ByteLimit
    {
      if |messages| >= config.batchSize {
        return Some(CountLimit);
      }
      var currentSize := CalculateBatchSize();
      if currentSize + |m.body| > config.batchBytes {
        return Some(ByteLimit);
      }
      messages := messages + [m];
      return None;
    }

    method Clear()
      modifies this`messages
      ensures messages == []
    {
      messages := messages[..0];
    }

    method IsFull() returns (full: bool)
      ensures full <==> Full(config, messages)
      ensures full <==> |messages| >= config.batchSize || SizeOf(messages) >= config.batchBytes
    {
      if |messages| >= config.batchSize {
        return true;
      }
      var size := CalculateBatchSize();
      return size >= config.batchBytes;
    }
  }

  /** Client.SendBatch: the topic check and the send. An empty batch is a success that sends nothing;
      otherwise a success has one result, which stands here for the batch it is about. */
  method SendBatch(batch: seq<Message>, sendOk: bool) returns (results: seq<seq<Message>>, err: Option<Error>)
    ensures results == Flushed(batch, sendOk).sent
    ensures err.None? <==> batch == [] || (SameTopic(batch) && sendOk)
    ensures err.Some? ==> err.value == if SameTopic(batch) then SendFailed else MixedTopics
  {
    if batch == [] {
      return [], None;
    }
    var topic := batch[0].topic;
    for i := 0 to |batch|
      invariant forall j :: 0 <= j < i ==> batch[j].topic == topic
    {
      if batch[i].topic != topic {
        return [], Some(MixedTopics);
      }
    }
    if !sendOk {
      return [], Some(SendFailed);
    }
    return [batch], None;
  }

  // ---------------------------------------------------------------------------------------------
  // The producer
  // ---------------------------------------------------------------------------------------------

  /** What resultCh holds after results were offered to it one by one, those that find it full being
      dropped, and nobody having read from it meanwhile. */
  function Offered(config: Config, ch: seq<seq<Message>>, results: seq<seq<Message>>): seq<seq<Message>> {
    if results == [] then ch
    else
      var n := |results| - 1;
      var before := Offered(config, ch, results[..n]);
      if |before| < 2 * config.batchSize then before + [results[n]] else before
  }

  lemma {:induction false} OfferedAppend(config: Config, ch: seq<seq<Message>>, a: seq<seq<Message>>,
                                         b: seq<seq<Message>>)
    ensures Offered(config, ch, a + b) == Offered(config, Offered(config, ch, a), b)
    decreases |b|
  {
    if b == [] {
      assert a + b == a;
    } else {
      var n := |b| - 1;
      OfferedAppend(config, ch, a, b[..n]);
      assert (a + b)[..|a + b| - 1] == a + b[..n];
    }
  }

  /** Unread results are the earliest that fit: everything offered while there is room, in order, and
      nothing of what comes later. */
  lemma {:induction false} OfferedIsPrefix(config: Config, ch: seq<seq<Message>>, results: seq<seq<Message>>)
    requires |ch| <= 2 * config.batchSize
    ensures var room := 2 * config.batchSize - |ch|;
            Offered(config, ch, results) == ch + if |results| <= room then results else results[..room]
    decreases |results|
  {
    if results != [] {
      var n := |results| - 1;
      OfferedIsPrefix(config, ch, results[..n]);
      assert results == results[..n] + [results[n]];
    }
  }

  /** The producer's run loop. `sent` and `errors` record, in order, the batches the broker took and
      the errors the loop has put, or is waiting to put, on errCh; resultCh holds the results that
      are buffered, each standing for its batch. */
  class BatchProducer {
    const config: Config
    const batch: BatchMessage
    var sent: seq<seq<Message>>
    var errors: seq<Error>
    var resultCh: seq<seq<Message>>

    ghost predicate Valid()
      reads this
    {
      batch.config == config
    }

    ghost function View(): Outcome
      reads this, batch
    {
      Outcome(batch.messages, sent, errors)
    }

    constructor (config: Config)
      ensures this.config == config && Valid() && fresh(batch) && View() == Idle([]) && resultCh == []
    {
      this.config := config;
      batch := new BatchMessage(config);
      sent := [];
      errors := [];
      resultCh := [];
    }

    method Flush(sendOk: bool)
      requires Valid()
      modifies this, batch
      ensures View() == old(View()).Then(Flushed(old(batch.messages), sendOk))
      ensures old(batch.messages) == [] ==> View() == old(View())
      ensures old(batch.messages) != [] && SameTopic(old(batch.messages)) && sendOk ==>
                batch.messages == [] && sent == old(sent) + [old(batch.messages)] && errors == old(errors)
      ensures old(batch.messages) != [] && !(SameTopic(old(batch.messages)) && sendOk) ==>
                && batch.messages == old(batch.messages) && sent == old(sent)
                && errors == old(errors) + [if SameTopic(batch.messages) then SendFailed else MixedTopics]
      ensures resultCh == Offered(config, old(resultCh), Flushed(old(batch.messages), sendOk).sent)
    {
      if batch.messages == [] {
        return;
      }
      var results, err := SendBatch(batch.messages, sendOk);
      if err.Some? {
        errors := errors + [err.value];
        return;
      }
      sent := sent + [batch.messages];
      for i := 0 to |results|
        invariant resultCh == Offered(config, old(resultCh), results[..i])
        invariant batch.messages == old(batch.messages) && errors == old(errors)
        invariant sent == old(sent) + [batch.messages]
      {
        assert results[..i + 1][..i] == results[..i];
        if |resultCh| < 2 * config.batchSize {
          resultCh := resultCh + [results[i]];
        }
      }
      assert results[..|results|] == results;
      batch.Clear();
    }

    /** The two attempts to add a received message, with the overflow flush in between. */
    method AddOrMakeRoom(m: Message, overflowOk: bool) returns (added: bool)
      requires Valid()
      modifies this, batch
      ensures var room := MakeRoom(config, old(batch.messages), m, overflowOk);
              && added == Admits(config, room.batch, m)
              && View() == if added
                           then old(View()).Then(room).(batch := room.batch + [m])
                           else old(View()).Then(room).Then(Outcome(room.batch, [], [Refusal(config, room.batch)]))
      ensures resultCh == Offered(config, old(resultCh), MakeRoom(config, old(batch.messages), m, overflowOk).sent)
    {
      var err := batch.AddMessage(m);
      if err.None? {
        return true;
      }
      if batch.messages != [] {
        Flush(overflowOk);
      }
      err := batch.AddMessage(m);
      if err.Some? {
        errors := errors + [err.value];
        return false;
      }
      return true;
    }

    /** case msg := <-bp.sendCh */
    method OnMessage(m: Message, overflowOk: bool, fullOk: bool)
      requires Valid()
      modifies this, batch
      ensures var out := Iteration(config, old(batch.messages), Receive(m, overflowOk, fullOk));
              View() == old(View()).Then(out) && resultCh == Offered(config, old(resultCh), out.sent)
    {
      ghost var start, room := View(), MakeRoom(config, batch.messages, m, overflowOk);
      var added := AddOrMakeRoom(m, overflowOk);
      if !added {
        ThenAssociates(start, room, Outcome(room.batch, [], [Refusal(config, room.batch)]));
        OfferedAppend(config, old(resultCh), room.sent, []);
        return;
      }
      ThenAssociates(start, room, FlushIfFull(config, room.batch + [m], fullOk));
      OfferedAppend(config, old(resultCh), room.sent, FlushIfFull(config, room.batch + [m], fullOk).sent);
      var full := batch.IsFull();
      if full {
        Flush(fullOk);
      }
    }

    /** One iteration of run(), for whichever case select took. A tick and the close case send whatever
        one-topic batch there is, however small, or report that the send failed. */
    method Iterate(e: Event)
      requires Valid()
      modifies this, batch
      ensures var out := Iteration(config, old(batch.messages), e);
              View() == old(View()).Then(out) && resultCh == Offered(config, old(resultCh), out.sent)
      ensures !e.Receive? && old(batch.messages) != [] && SameTopic(old(batch.messages)) ==>
                if e.sendOk
                then batch.messages == [] && sent == old(sent) + [old(batch.messages)] && errors == old(errors)
                else batch.messages == old(batch.messages) && sent == old(sent) && errors == old(errors) + [SendFailed]
      ensures !e.Receive? && old(batch.messages) == [] ==> View() == old(View())
    {
      match e
      case Receive(m, overflowOk, fullOk) =>
        OnMessage(m, overflowOk, fullOk);
      case Tick(sendOk) =>
        if batch.messages != [] {
          Flush(sendOk);
        }
      case Stop(sendOk) =>
        if batch.messages != [] {
          Flush(sendOk);
        }
    }

    /** run(): iterates until the close case has been taken, while nobody reads resultCh. */
    method Run(events: seq<Event>)
      requires Valid()
      modifies this, batch
      ensures View() == RunFrom(config, old(View()), events)
      ensures old(sent) <= sent && resultCh == Offered(config, old(resultCh), sent[|old(sent)|..])
    {
      var i := 0;
      while i < |events|
        invariant 0 <= i <= |events|
        invariant old(sent) <= sent && resultCh == Offered(config, old(resultCh), sent[|old(sent)|..])
        invariant RunFrom(config, View(), events[i..]) == RunFrom(config, old(View()), events)
      {
        assert events[i..][1..] == events[i + 1..];
        ghost var before := sent;
        Iterate(events[i]);
        OfferedAppend(config, old(resultCh), before[|old(sent)|..], sent[|before|..]);
        assert sent[|old(sent)|..] == before[|old(sent)|..] + sent[|before|..];
        if events[i].Stop? {
          return;
        }
        i := i + 1;
      }
    }
  }

  /** Everything a run of the loop adds to `done`: one iteration per event, up to the first Stop. */
  function RunFrom(config: Config, done: Outcome, events: seq<Event>): Outcome
    decreases |events|
  {
    if events == [] then done
    else
      var next := done.Then(Iteration(config, done.batch, events[0]));
      if events[0].Stop? then next else RunFrom(config, next, events[1..])
  }
}

/**
 The request/response client's own code on its map of contexts, as the imperative methods it
 consists of. Each is proved against a function of the map, and the lemmas at the end show that
 function to be what the corresponding steps of RequestProtocol do when nothing comes in between:
 one response handler, a whole cleanup pass, and Close as a whole. Request itself waits for others
 and has no method; its deferred function is DeferredSection.
 */
module RequestClient {
  import opened Wrappers
  import opened RequestProtocol

  /** The contexts ever made, the keys of requestMap, what has panicked, and whether stopChan is closed,
      which ends the cleaner. */
  datatype Store = Store(contexts: map<string, Context>, registered: set<string>, panic: Panic, closing: bool)

  /** handleResponse. */
  function Handled(st: Store, reply: Reply): Store {
    var id := CorrelationOf(reply.properties);
    if id == "" || id !in st.registered || id !in st.contexts then st
    else
      var c := st.contexts[id];
      if c.status == Timeout then st
      else if c.closedBy != Nobody then st.(panic := SentOnClosed)
      else if c.slot.Some? then st
      else st.(contexts := st.contexts[id := c.(slot := Some(reply))])
  }

  /** SetStatus, then drain the channel or close it. */
  function Sealed(c: Context, status: Status, who: ClosedBy): Context {
    if ReadyToReceive(c) then c.(status := status, slot := None) else c.(status := status, closedBy := who)
  }

  function SealAll(contexts: map<string, Context>, ids: set<string>, status: Status,
                   who: ClosedBy): map<string, Context> {
    map id | id in contexts :: if id in ids then Sealed(contexts[id], status, who) else contexts[id]
  }

  function ExpiredIds(st: Store, now: int): set<string> {
    set id | id in st.registered && id in st.contexts && Expired(st.contexts[id], now)
  }

  /** A cleanup pass: exactly the expired entries are removed, their channels drained or closed. */
  function CleanedUp(st: Store, now: int): Store {
    var expired := ExpiredIds(st, now);
    st.(contexts := SealAll(st.contexts, expired, Timeout, ByCleaner), registered := st.registered - expired)
  }

  /** Close: every registered context is failed and its channel drained or closed. */
  function ShutDown(st: Store): Store {
    Store(SealAll(st.contexts, st.registered, Failed, ByClose), {}, st.panic, true)
  }

  predicate IsPending(c: Context) {
    c.status == Pending || c.status == Processing
  }

  function PendingOf(st: Store): set<string> {
    set id | id in st.registered && id in st.contexts && IsPending(st.contexts[id])
  }

  class RequestResponseClient {
    var contexts: map<string, Context>
    var requestMap: set<string>
    var panic: Panic
    var closing: bool

    ghost function View(): Store
      reads this
    {
      Store(contexts, requestMap, panic, closing)
    }

    constructor ()
      ensures View() == Store(map[], {}, NoPanic, false)
    {
      contexts, requestMap, panic, closing := map[], {}, NoPanic, false;
    }

    method HandleResponse(reply: Reply)
      requires requestMap <= contexts.Keys
      modifies this
      ensures View() == Handled(old(View()), reply)
      ensures requestMap == old(requestMap) && closing == old(closing)
      ensures var id := if "CORRELATION_ID" in reply.properties then reply.properties["CORRELATION_ID"] else "";
              if id == "" || id !in requestMap || old(contexts)[id].status == Timeout then View() == old(View())
              else if old(contexts)[id].closedBy != Nobody
              then panic == SentOnClosed && contexts == old(contexts)
              else
                && panic == old(panic)
                && contexts == if old(contexts)[id].slot.Some? then old(contexts)
                               else old(contexts)[id := old(contexts)[id].(slot := Some(reply))]
    {
      var id := if CORRELATION_ID in reply.properties then reply.properties[CORRELATION_ID] else "";
      if id == "" {
        return;
      }
      if id in requestMap {
        var c := contexts[id];
        if c.status == Timeout {
          return;
        }
        if c.closedBy != Nobody {
          panic := SentOnClosed;
        } else if c.slot.None? {
          contexts := contexts[id := c.(slot := Some(reply))];
        }
      }
    }

    /** SetStatus and the select that drains or closes. */
    method Seal(id: string, status: Status, who: ClosedBy)
      requires id in contexts
      modifies this`contexts
      ensures contexts == old(contexts)[id := Sealed(old(contexts)[id], status, who)]
      ensures var c := old(contexts)[id];
              contexts[id] == if c.slot == None && c.closedBy == Nobody
                              then c.(status := status, closedBy := who) else c.(status := status, slot := None)
    {
      contexts := contexts[id := contexts[id].(status := status)];
      var c := contexts[id];
      if c.slot.Some? || c.closedBy != Nobody {
        contexts := contexts[id := c.(slot := None)];
      } else {
        contexts := contexts[id := c.(closedBy := who)];
      }
    }

    /** Range over the map, then remove and seal what was selected. */
    method PerformSafeCleanup(now: int)
      requires requestMap <= contexts.Keys
      modifies this
      ensures View() == CleanedUp(old(View()), now)
      ensures forall id :: id in requestMap <==>
                id in old(requestMap) && var c := old(contexts)[id];
                  !(c.status == Timeout || (c.status == Pending && now - c.requestTime > c.timeout + 5_000))
    {
      var expired: set<string> := {};
      var unseen := requestMap;
      while unseen != {}
        invariant unseen <= requestMap
        invariant expired == ExpiredIds(old(View()), now) - unseen
        decreases |unseen|
      {
        var id :| id in unseen;
        if contexts[id].status == Timeout ||
           (contexts[id].status == Pending && now - contexts[id].requestTime > contexts[id].timeout + GRACE) {
          expired := expired + {id};
        }
        unseen := unseen - {id};
      }
      SealKeys(expired);
    }

    method SealKeys(expired: set<string>)
      requires expired <= requestMap <= contexts.Keys
      modifies this`requestMap, this`contexts
      ensures requestMap == old(requestMap) - expired
      ensures contexts == SealAll(old(contexts), expired, Timeout, ByCleaner)
    {
      var todo := expired;
      while todo != {}
        invariant todo <= expired <= old(contexts).Keys && requestMap == old(requestMap) - (expired - todo)
        invariant contexts == SealAll(old(contexts), expired - todo, Timeout, ByCleaner)
        decreases |todo|
      {
        var id :| id in todo;
        assert contexts[id] == old(contexts)[id];
        requestMap := requestMap - {id};
        Seal(id, Timeout, ByCleaner);
        todo := todo - {id};
      }
    }

    /** Closing stopChan a second time would panic. The wait for the cleaner to finish is the condition
        under which the protocol's CloseBegin is enabled. */
    method Close()
      requires requestMap <= contexts.Keys && !closing
      modifies this
      ensures View() == ShutDown(old(View()))
      ensures closing && requestMap == {} && panic == old(panic) && contexts.Keys == old(contexts).Keys
      ensures forall id :: id in contexts ==>
                var c := old(contexts)[id];
                contexts[id] == if id !in old(requestMap) then c
                                else if c.slot == None && c.closedBy == Nobody
                                then c.(status := Failed, closedBy := ByClose) else c.(status := Failed, slot := None)
    {
      closing := true;
      while requestMap != {}
        invariant requestMap <= old(requestMap) <= old(contexts).Keys && panic == old(panic) && closing
        invariant contexts == SealAll(old(contexts), old(requestMap) - requestMap, Failed, ByClose)
        decreases |requestMap|
      {
        var id :| id in requestMap;
        assert contexts[id] == old(contexts)[id];
        Seal(id, Failed, ByClose);
        requestMap := requestMap - {id};
      }
    }

    method GetPendingRequestCount() returns (count: nat)
      requires requestMap <= contexts.Keys
      ensures count == |PendingOf(View())|
      ensures count == |set id | id in requestMap && contexts[id].status in {Pending, Processing}|
    {
      count := 0;
      ghost var counted: set<string> := {};
      var unseen := requestMap;
      while unseen != {}
        invariant unseen <= requestMap
        invariant counted <= requestMap - unseen && count == |counted|
        invariant forall id :: id in requestMap - unseen ==> (id in counted <==> IsPending(contexts[id]))
        decreases |unseen|
      {
        var id :| id in unseen;
        if contexts[id].status == Pending || contexts[id].status == Processing {
          count := count + 1;
          counted := counted + {id};
        }
        unseen := unseen - {id};
      }
      assert counted == PendingOf(View());
      assert counted == set id | id in requestMap && contexts[id].status in {Pending, Processing};
    }
  }

  // ---------------------------------------------------------------------------------------------
  // Methods and protocol steps
  // ---------------------------------------------------------------------------------------------

  function StoreOf(s: System): Store {
    Store(s.contexts, s.registered, s.panic, s.closing)
  }

  lemma ExecTwo(s: System, a: Step, b: Step)
    ensures Exec(s, [a, b]) == Next(Next(s, a), b)
  {
    ExecUnfold(s, [a, b]);
    assert [a, b][1..] == [b];
    ExecUnfold(Next(s, a), [b]);
    assert [b][1..] == [];
  }

  lemma ExecThree(s: System, a: Step, b: Step, c: Step)
    ensures Exec(s, [a, b, c]) == Next(Next(Next(s, a), b), c)
  {
    var s1 := Next(s, a);
    var s2 := Next(s1, b);
    ExecUnfold(s, [a, b, c]);
    assert [a, b, c][1..] == [b, c];
    ExecUnfold(s1, [b, c]);
    assert [b, c][1..] == [c];
    ExecUnfold(s2, [c]);
    assert [c][1..] == [];
  }

  /** An uninterrupted response handler does what HandleResponse does. */
  lemma {:induction false} HandlerSection(s: System, h: nat, reply: Reply)
    requires s.panic == NoPanic && h !in s.handlers && reply in s.wire && s.registered <= s.contexts.Keys
    ensures var t := Exec(s, [Load(h, reply), Check(h), Offer(h)]);
            StoreOf(t) == Handled(StoreOf(s), reply) && t.handlers == s.handlers
  {
    var id := CorrelationOf(reply.properties);
    ExecThree(s, Load(h, reply), Check(h), Offer(h));
    if id != "" && id in s.registered {
      CheckAndOffer(s, h, id, reply);
    }
  }

  lemma {:induction false} CheckAndOffer(s: System, h: nat, id: string, reply: Reply)
    requires s.panic == NoPanic && h !in s.handlers && reply in s.wire && id in s.registered && id in s.contexts
    requires id == CorrelationOf(reply.properties) != ""
    ensures var t := Next(Next(Next(s, Load(h, reply)), Check(h)), Offer(h));
            StoreOf(t) == Handled(StoreOf(s), reply) && t.handlers == s.handlers
  {
    var s1 := s.(handlers := s.handlers[h := Loaded(id, reply)]);
    var s2 := s.(handlers := s.handlers[h := Passed(id, reply)]);
    assert Next(s, Load(h, reply)) == s1;
    assert s1.handlers - {h} == s.handlers;
    if s.contexts[id].status == Timeout {
      assert Next(s1, Check(h)) == s;
    } else {
      assert s1.handlers[h := Passed(id, reply)] == s2.handlers;
      assert Next(s1, Check(h)) == s2;
      OfferStores(s, h, id, reply);
    }
  }

  lemma {:induction false} OfferStores(s: System, h: nat, id: string, reply: Reply)
    requires s.panic == NoPanic && h !in s.handlers && id in s.registered && id in s.contexts
    requires id == CorrelationOf(reply.properties) != "" && s.contexts[id].status != Timeout
    ensures var t := Next(s.(handlers := s.handlers[h := Passed(id, reply)]), Offer(h));
            StoreOf(t) == Handled(StoreOf(s), reply) && t.handlers == s.handlers
  {
    assert s.handlers[h := Passed(id, reply)] - {h} == s.handlers;
  }

  /** An uninterrupted deferred function removes the entry and seals its context. */
  lemma {:induction false} DeferredSection(s: System, id: string, r: RequestProtocol.Result)
    requires s.panic == NoPanic && CallAt(s, id, Deleting(r)) && id in s.contexts
    ensures var t := Exec(Next(s, DeleteEntry(id)), [SetFailed(id), ProbeOwn(id), CloseOwn(id)]);
            && t.registered == s.registered - {id} && CallAt(t, id, Returned(r)) && t.panic == NoPanic
            && t.contexts == s.contexts[id := Sealed(s.contexts[id], Failed, ByCaller)]
  {
    var c := s.contexts[id];
    var s1 := WithPc(s.(registered := s.registered - {id}), id, Marking(r));
    var s2 := WithPc(WithContext(s1, id, c.(status := Failed)), id, Probing(r));
    assert Next(s, DeleteEntry(id)) == s1;
    assert Next(s1, SetFailed(id)) == s2;
    ExecThree(s1, SetFailed(id), ProbeOwn(id), CloseOwn(id));
    if !ReadyToReceive(c) {
      assert Next(s2, ProbeOwn(id)) == WithPc(s2, id, Shutting(r));
    }
  }

  /** The cleaner's uninterrupted treatment of one entry. */
  lemma {:induction false} CleanerSection(s: System, id: string)
    requires s.panic == NoPanic && s.cleaner == Free && id in s.picked && id in s.registered && id in s.contexts
    ensures Exec(s, [Remove(id), Sweep] + [Sweep, Sweep]) ==
            s.(picked := s.picked - {id}, registered := s.registered - {id},
               contexts := s.contexts[id := Sealed(s.contexts[id], Timeout, ByCleaner)])
  {
    var c := s.contexts[id];
    var s1 := s.(picked := s.picked - {id}, registered := s.registered - {id}, cleaner := At(id, Mark));
    var s2 := WithContext(s1, id, c.(status := Timeout)).(cleaner := At(id, Probe));
    assert Next(s, Remove(id)) == s1;
    assert Next(s1, Sweep) == s2;
    ExecTwo(s, Remove(id), Sweep);
    ExecTwo(s2, Sweep, Sweep);
    ExecAppend(s, [Remove(id), Sweep], [Sweep, Sweep]);
    if !ReadyToReceive(c) {
      assert Next(s2, Sweep) == s2.(cleaner := At(id, Shut));
    }
  }

  /** Close's uninterrupted treatment of one entry. */
  lemma {:induction false} CloseSection(s: System, id: string)
    requires s.panic == NoPanic && s.closing && s.closer == Free && id in s.registered && id in s.contexts
    ensures Exec(s, [Visit(id), SweepClosing] + [SweepClosing, SweepClosing, SweepClosing]) ==
            s.(registered := s.registered - {id},
               contexts := s.contexts[id := Sealed(s.contexts[id], Failed, ByClose)])
  {
    var c := s.contexts[id];
    var s1 := s.(closer := At(id, Mark));
    var s2 := WithContext(s, id, c.(status := Failed)).(closer := At(id, Probe));
    assert Next(s, Visit(id)) == s1;
    assert Next(s1, SweepClosing) == s2;
    ExecTwo(s, Visit(id), SweepClosing);
    ExecThree(s2, SweepClosing, SweepClosing, SweepClosing);
    ExecAppend(s, [Visit(id), SweepClosing], [SweepClosing, SweepClosing, SweepClosing]);
    if !ReadyToReceive(c) {
      assert Next(s2, SweepClosing) == s2.(closer := At(id, Shut));
    }
  }

  // ---------------------------------------------------------------------------------------------
  // Whole passes
  // ---------------------------------------------------------------------------------------------

  function ToSet(order: seq<string>): set<string> {
    set id | id in order
  }

  predicate Distinct(order: seq<string>) {
    forall i, j :: 0 <= i < j < |order| ==> order[i] != order[j]
  }

  /** The first loop of a cleanup pass, in the order in which Range presents the expired keys. */
  function PickSteps(order: seq<string>, now: int): seq<Step> {
    if order == [] then [] else [Pick(order[0], now)] + PickSteps(order[1..], now)
  }

  /** The second loop. */
  function CleanerSteps(order: seq<string>): seq<Step> {
    if order == [] then [] else ([Remove(order[0]), Sweep] + [Sweep, Sweep]) + CleanerSteps(order[1..])
  }

  /** Close's loop. */
  function CloseSteps(order: seq<string>): seq<Step> {
    if order == [] then []
    else ([Visit(order[0]), SweepClosing] + [SweepClosing, SweepClosing, SweepClosing]) + CloseSteps(order[1..])
  }

  lemma {:induction false} PickAll(s: System, order: seq<string>, now: int)
    requires s.panic == NoPanic && !s.closing && s.cleaner == Free
    requires forall id :: id in order ==> id in s.registered && id in s.contexts && Expired(s.contexts[id], now)
    ensures Exec(s, PickSteps(order, now)) == s.(picked := s.picked + ToSet(order))
    decreases |order|
  {
    if order == [] {
      assert s.picked + ToSet(order) == s.picked;
    } else {
      var pick, t := Pick(order[0], now), s.(picked := s.picked + {order[0]});
      assert Next(s, pick) == t;
      ExecUnfold(s, [pick] + PickSteps(order[1..], now));
      PickAll(t, order[1..], now);
      assert order == [order[0]] + order[1..];
      assert {order[0]} + ToSet(order[1..]) == ToSet(order);
      assert t.picked + ToSet(order[1..]) == s.picked + ToSet(order);
    }
  }

  /** Sealing the first context and then the others is sealing them all. */
  lemma {:induction false} SealFirst(contexts: map<string, Context>, order: seq<string>, status: Status, who: ClosedBy)
    requires order != [] && Distinct(order) && order[0] in contexts
    ensures var first := contexts[order[0] := Sealed(contexts[order[0]], status, who)];
            SealAll(first, ToSet(order[1..]), status, who) == SealAll(contexts, ToSet(order), status, who)
    ensures order[0] !in order[1..] && Distinct(order[1..])
    ensures ToSet(order) == {order[0]} + ToSet(order[1..])
  {
    assert order == [order[0]] + order[1..];
    assert ToSet(order) == {order[0]} + ToSet(order[1..]);
    assert order[0] !in ToSet(order[1..]);
  }

  lemma {:induction false} CleanAll(s: System, order: seq<string>)
    requires s.panic == NoPanic && s.cleaner == Free && Distinct(order)
    requires forall id :: id in order ==> id in s.picked && id in s.registered && id in s.contexts
    ensures Exec(s, CleanerSteps(order)) ==
            s.(picked := s.picked - ToSet(order), registered := s.registered - ToSet(order),
               contexts := SealAll(s.contexts, ToSet(order), Timeout, ByCleaner))
    decreases |order|
  {
    if order == [] {
      assert s.picked - {} == s.picked && s.registered - {} == s.registered;
      assert SealAll(s.contexts, {}, Timeout, ByCleaner) == s.contexts;
    } else {
      var id := order[0];
      var t := s.(picked := s.picked - {id}, registered := s.registered - {id},
                  contexts := s.contexts[id := Sealed(s.contexts[id], Timeout, ByCleaner)]);
      CleanerSection(s, id);
      ExecAppend(s, [Remove(id), Sweep] + [Sweep, Sweep], CleanerSteps(order[1..]));
      SealFirst(s.contexts, order, Timeout, ByCleaner);
      CleanAll(t, order[1..]);
      assert t.picked - ToSet(order[1..]) == s.picked - ToSet(order);
      assert t.registered - ToSet(order[1..]) == s.registered - ToSet(order);
    }
  }

  lemma {:induction false} CloseAll(s: System, order: seq<string>)
    requires s.panic == NoPanic && s.closing && s.closer == Free && Distinct(order)
    requires forall id :: id in order ==> id in s.registered && id in s.contexts
    ensures Exec(s, CloseSteps(order)) ==
            s.(registered := s.registered - ToSet(order),
               contexts := SealAll(s.contexts, ToSet(order), Failed, ByClose))
    decreases |order|
  {
    if order == [] {
      assert s.registered - {} == s.registered;
      assert SealAll(s.contexts, {}, Failed, ByClose) == s.contexts;
    } else {
      var id := order[0];
      var t := s.(registered := s.registered - {id},
                  contexts := s.contexts[id := Sealed(s.contexts[id], Failed, ByClose)]);
      CloseSection(s, id);
      ExecAppend(s, [Visit(id), SweepClosing] + [SweepClosing, SweepClosing, SweepClosing], CloseSteps(order[1..]));
      SealFirst(s.contexts, order, Failed, ByClose);
      CloseAll(t, order[1..]);
      assert t.registered - ToSet(order[1..]) == s.registered - ToSet(order);
    }
  }

  /** An uninterrupted cleanup pass does what PerformSafeCleanup does, whatever the order in which the
      map presents its keys. */
  lemma {:induction false} CleanupPass(s: System, order: seq<string>, now: int)
    requires s.panic == NoPanic && !s.closing && s.cleaner == Free && s.picked == {}
    requires Distinct(order) && ToSet(order) == ExpiredIds(StoreOf(s), now)
    ensures var t := Exec(s, PickSteps(order, now) + CleanerSteps(order));
            StoreOf(t) == CleanedUp(StoreOf(s), now) && t.cleaner == Free && t.picked == {}
  {
    forall id | id in order ensures id in s.registered && id in s.contexts && Expired(s.contexts[id], now) {
      assert id in ToSet(order);
    }
    PickAll(s, order, now);
    ExecAppend(s, PickSteps(order, now), CleanerSteps(order));
    CleanAll(s.(picked := s.picked + ToSet(order)), order);
  }

  /** And an uninterrupted Close does what the method Close does. */
  lemma {:induction false} ClosePass(s: System, order: seq<string>)
    requires s.panic == NoPanic && !s.closing && s.cleaner == Free && s.picked == {} && s.closer == Free
    requires s.registered <= s.contexts.Keys && Distinct(order) && ToSet(order) == s.registered
    ensures var t := Exec(s, [CloseBegin] + CloseSteps(order));
            StoreOf(t) == ShutDown(StoreOf(s)) && t.closer == Free
  {
    var t := s.(closing := true);
    forall id | id in order ensures id in t.registered && id in t.contexts {
      assert id in ToSet(order);
    }
    assert Next(s, CloseBegin) == t;
    ExecUnfold(s, [CloseBegin] + CloseSteps(order));
    assert ([CloseBegin] + CloseSteps(order))[1..] == CloseSteps(order);
    CloseAll(t, order);
    assert s.registered - ToSet(order) == {};
  }
}

/**
 The name-server resolver with its cache, which stores failures as well as successes, and the
 linear-backoff retry on top of it. `net` parsing and lookups are oracles gathered in `Network`;
 a lookup's answer may depend on when it is made. The clock is read as a lookup returns.
 */
module Dns {
  import opened Wrappers

  /** An address as LookupIP returns it; V4 is one whose To4() is not nil. */
  datatype Ip = V4(n: nat) | V6(n: nat)

  /** `Literal` is an input returned as it is, `Joined` the result of JoinHostPort. */
  datatype Address = Literal(nameserver: string) | Joined(ip: Ip, port: string)

  datatype Error =
    | EmptyName | NoColon | Malformed
    | LookupFailed(host: string) | NoAddress(host: string)
    | RetriesExhausted(maxRetries: int, last: Option<Error>)
    | NoNameServers | NoneResolved(last: Option<Error>)

  type Answer = Result<Address, Error>

  datatype HostPort = HostPort(host: string, port: string)

  datatype Network = Network(
    split: string -> Option<HostPort>,        // SplitHostPort
    isIp: string -> bool,                     // ParseIP(host) != nil
    lookup: (string, nat) -> Option<seq<Ip>>  // LookupIP(host) returning at a given time
  )

  datatype Config = Config(refreshInterval: int, enableCache: bool, maxRetries: int, retryInterval: int)

  function DefaultConfig(): Config {
    Config(30_000, true, 3, 1_000)   // milliseconds
  }

  function Max(a: int, b: int): int {
    if a < b then b else a
  }

  function Validate(net: Network, name: string): Option<Error> {
    if name == "" then Some(EmptyName)
    else if ':' !in name then Some(NoColon)
    else if net.split(name).None? then Some(Malformed)
    else None
  }

  predicate IsIpAddress(net: Network, name: string) {
    net.split(name).Some? && net.isIp(net.split(name).value.host)
  }

  /** A name that can only be answered by DNS. */
  predicate NeedsLookup(net: Network, name: string) {
    Validate(net, name).None? && !IsIpAddress(net, name)
  }

  /** The first IPv4 address, or the first address if there is none. */
  function Preferred(ips: seq<Ip>): Ip
    requires ips != []
  {
    if ips[0].V4? || forall i :: 0 <= i < |ips| ==> ips[i].V6? then ips[0] else Preferred(ips[1..])
  }

  lemma {:induction false} PreferredIsFirstV4(ips: seq<Ip>, k: nat)
    requires k < |ips| && ips[k].V4? && forall i :: 0 <= i < k ==> ips[i].V6?
    ensures Preferred(ips) == ips[k]
    decreases |ips|
  {
    if k > 0 {
      PreferredIsFirstV4(ips[1..], k - 1);
    }
  }

  lemma {:induction false} PreferredElseFirst(ips: seq<Ip>)
    requires ips != []
    ensures Preferred(ips) in ips
    ensures (forall i :: 0 <= i < |ips| ==> ips[i].V6?) ==> Preferred(ips) == ips[0]
    ensures (exists i :: 0 <= i < |ips| && ips[i].V4?) ==> Preferred(ips).V4?
    decreases |ips|
  {
    if !(ips[0].V4? || forall i :: 0 <= i < |ips| ==> ips[i].V6?) {
      var k :| 0 <= k < |ips| && ips[k].V4?;
      assert ips[1..][k - 1].V4?;
      PreferredElseFirst(ips[1..]);
    }
  }

  /** What the answer to a lookup at time t is: an address exactly when it finds some, joined with the
      port asked for, the first IPv4 one if there is one and otherwise the first; or which error. */
  ghost predicate Describes(net: Network, name: string, t: nat, r: Answer) {
    match net.split(name)
    case None => r == Err(Malformed)
    case Some(hp) =>
      match net.lookup(hp.host, t)
      case None => r == Err(LookupFailed(hp.host))
      case Some(ips) =>
        if ips == [] then r == Err(NoAddress(hp.host))
        else r.Ok? && r.value.Joined? && r.value.port == hp.port && IsChoice(ips, r.value.ip)
  }

  predicate AllV6(ips: seq<Ip>) {
    forall i :: 0 <= i < |ips| ==> ips[i].V6?
  }

  /** The k-th address is the first IPv4 one, or the very first if there is none. */
  predicate ChoiceAt(ips: seq<Ip>, k: nat)
    requires k < |ips|
  {
    if ips[k].V4? then AllV6(ips[..k]) else k == 0 && AllV6(ips)
  }

  predicate IsChoice(ips: seq<Ip>, ip: Ip) {
    exists k :: 0 <= k < |ips| && ip == ips[k] && ChoiceAt(ips, k)
  }

  lemma {:induction false} PreferredIsChoice(ips: seq<Ip>)
    requires ips != []
    ensures IsChoice(ips, Preferred(ips))
    decreases |ips|
  {
    if ips[0].V4? || AllV6(ips) {
      assert Preferred(ips) == ips[0] && ChoiceAt(ips, 0);
    } else {
      PreferredElseFirst(ips);
      PreferredIsChoice(ips[1..]);
      var j :| 0 <= j < |ips[1..]| && Preferred(ips[1..]) == ips[1..][j] && ChoiceAt(ips[1..], j);
      assert ips[j + 1].V4?;
      assert forall i :: 0 < i < j + 1 ==> ips[i] == ips[1..][..j][i - 1];
      assert ChoiceAt(ips, j + 1);
    }
  }

  /** doResolve for a lookup returning at time t. */
  function Resolved(net: Network, name: string, t: nat): Answer {
    match net.split(name)
    case None => Err(Malformed)
    case Some(HostPort(host, port)) =>
      match net.lookup(host, t)
      case None => Err(LookupFailed(host))
      case Some(ips) => if ips == [] then Err(NoAddress(host)) else Ok(Joined(Preferred(ips), port))
  }

  lemma {:induction false} ResolvedDescribes(net: Network, name: string, t: nat)
    ensures Describes(net, name, t, Resolved(net, name, t))
  {
    match net.split(name)
    case None =>
    case Some(hp) =>
      var found := net.lookup(hp.host, t);
      if found.Some? && found.value != [] {
        PreferredIsChoice(found.value);
      }
  }

  // What a resolver without a cache answers when lookups do not change over time.

  ghost predicate Stationary(net: Network) {
    forall host: string, t: nat, u: nat :: net.lookup(host, t) == net.lookup(host, u)
  }

  function PlainName(net: Network, name: string): Answer {
    match Validate(net, name)
    case Some(e) => Err(e)
    case None => if IsIpAddress(net, name) then Ok(Literal(name)) else Resolved(net, name, 0)
  }

  function PlainRetry(net: Network, config: Config, name: string): Answer {
    if config.maxRetries < 0 then Err(RetriesExhausted(config.maxRetries, None))
    else
      match PlainName(net, name)
      case Ok(a) => Ok(a)
      case Err(e) => Err(RetriesExhausted(config.maxRetries, Some(e)))
  }

  /** The addresses among the answers, in order, and the last error among them. */
  function Collected(answers: seq<Answer>): (seq<Address>, Option<Error>) {
    if answers == [] then ([], None)
    else
      var (addrs, last) := Collected(answers[..|answers| - 1]);
      match answers[|answers| - 1]
      case Ok(a) => (addrs + [a], last)
      case Err(e) => (addrs, Some(e))
  }

  /** What the answers for a list of names add up to: an error exactly when none of them resolved. */
  function ListAnswer(answers: seq<Answer>): Result<seq<Address>, Error> {
    var (addrs, last) := Collected(answers);
    if answers == [] then Err(NoNameServers)
    else if addrs == [] then Err(NoneResolved(last))
    else Ok(addrs)
  }

  lemma {:induction false} CollectedEmpty(answers: seq<Answer>)
    ensures Collected(answers).0 == [] <==> forall i :: 0 <= i < |answers| ==> answers[i].Err?
    decreases |answers|
  {
    if answers != [] {
      var n := |answers| - 1;
      CollectedEmpty(answers[..n]);
      assert forall i :: 0 <= i < n ==> answers[..n][i] == answers[i];
      if answers[n].Err? && Collected(answers).0 == [] {
        forall i | 0 <= i < |answers| ensures answers[i].Err? {
          assert i < n ==> answers[..n][i].Err?;
        }
      }
    }
  }

  /** How many of the answers are addresses. */
  function Successes(answers: seq<Answer>): nat {
    if answers == [] then 0
    else Successes(answers[..|answers| - 1]) + if answers[|answers| - 1].Ok? then 1 else 0
  }

  /** The address of an answer comes after as many as there are successes before it. */
  ghost predicate InPlace(answers: seq<Answer>, addrs: seq<Address>, k: nat)
    requires k < |answers|
  {
    answers[k].Ok? ==> Successes(answers[..k]) < |addrs| && addrs[Successes(answers[..k])] == answers[k].value
  }

  lemma {:induction false} CollectedInOrder(answers: seq<Answer>)
    ensures |Collected(answers).0| == Successes(answers)
    ensures forall k :: 0 <= k < |answers| ==> InPlace(answers, Collected(answers).0, k)
    decreases |answers|
  {
    if answers != [] {
      var n := |answers| - 1;
      var init := answers[..n];
      CollectedInOrder(init);
      assert Collected(init).0 <= Collected(answers).0;
      forall k | 0 <= k < |answers| ensures InPlace(answers, Collected(answers).0, k) {
        if k < n {
          assert init[..k] == answers[..k] && init[k] == answers[k];
          assert InPlace(init, Collected(init).0, k);
        }
      }
    }
  }

  /** The answer for a list of names: the addresses found, in the order of the names; without any, the
      error of the last name. */
  lemma {:induction false} ListAnswerMeans(answers: seq<Answer>)
    ensures var r := ListAnswer(answers);
            && (answers == [] ==> r == Err(NoNameServers))
            && (answers != [] && Successes(answers) == 0 ==>
                  answers[|answers| - 1].Err? && r == Err(NoneResolved(Some(answers[|answers| - 1].error))))
            && (Successes(answers) > 0 ==>
                  && r.Ok? && |r.value| == Successes(answers)
                  && (forall k :: 0 <= k < |answers| ==> InPlace(answers, r.value, k)))
  {
    CollectedInOrder(answers);
    CollectedEmpty(answers);
  }

  lemma {:induction false} ListFailsExactly(answers: seq<Answer>)
    ensures ListAnswer(answers).Err? <==> forall i :: 0 <= i < |answers| ==> answers[i].Err?
  {
    CollectedEmpty(answers);
  }

  function PlainServers(net: Network, config: Config, names: seq<string>): Result<seq<Address>, Error> {
    ListAnswer(seq(|names|, i requires 0 <= i < |names| => PlainRetry(net, config, names[i])))
  }

  // ---------------------------------------------------------------------------------------------
  // The resolver's state and what one operation may do to it
  // ---------------------------------------------------------------------------------------------

  datatype Entry = Entry(answer: Answer, time: nat)

  /** A real doResolve call: its name, when it returned, and what. */
  datatype Lookup = Lookup(name: string, time: nat, answer: Answer)

  datatype State = State(
    cache: map<string, Entry>,
    now: int,
    lookups: seq<Lookup>,   // every real lookup so far
    cleared: nat,           // how many of them precede the last ClearCache
    slept: int,             // total of the sleeps asked for
    slack: int              // all other time that passed outside lookups
  )

  /** Some lookup since the last ClearCache returned `answer` for `name` at time t. */
  ghost predicate LookedUp(s: State, name: string, t: nat, answer: Answer) {
    exists k :: s.cleared <= k < |s.lookups| && s.lookups[k] == Lookup(name, t, answer)
  }

  ghost predicate Valid(net: Network, s: State) {
    && s.cleared <= |s.lookups| && s.now >= 0
    && (forall k :: 0 <= k < |s.lookups| ==>
          s.lookups[k].time <= s.now && s.lookups[k].answer == Resolved(net, s.lookups[k].name, s.lookups[k].time))
    && (forall name :: name in s.cache ==> LookedUp(s, name, s.cache[name].time, s.cache[name].answer))
  }

  /** A cached answer for the name that has not expired. */
  predicate Fresh(config: Config, s: State, name: string) {
    config.enableCache && name in s.cache && s.now - s.cache[name].time <= config.refreshInterval
  }

  /** What every operation but ClearCache respects. */
  ghost predicate Advanced(a: State, b: State) {
    b.cleared == a.cleared && a.lookups <= b.lookups && b.now >= a.now && b.slept >= a.slept && b.slack >= a.slack
  }

  /** Time spent outside lookups between two states. */
  function Idle(a: State, b: State): int {
    b.slept + b.slack - a.slept - a.slack
  }

  /** Invalid names and IP addresses are answered without DNS. Every other answer is that of a real
      lookup of that very name, made since the last ClearCache and at most RefreshInterval ago. */
  ghost predicate Answered(net: Network, config: Config, s: State, name: string, r: Answer) {
    if NeedsLookup(net, name)
    then exists t: nat :: LookedUp(s, name, t, r) && t <= s.now && s.now - t <= Max(0, config.refreshInterval)
    else r == PlainName(net, name)
  }

  /** What an answer to a name means: which names are rejected and how, that an IP address is its own
      answer, and otherwise what a lookup made at most RefreshInterval ago found. */
  ghost predicate AnswerMeans(net: Network, config: Config, s: State, name: string, r: Answer) {
    if name == "" then r == Err(EmptyName)
    else if ':' !in name then r == Err(NoColon)
    else
      match net.split(name)
      case None => r == Err(Malformed)
      case Some(hp) =>
        if net.isIp(hp.host) then r == Ok(Literal(name))
        else exists t: nat :: Describes(net, name, t, r) && t <= s.now && s.now - t <= Max(0, config.refreshInterval)
  }

  lemma {:induction false} AnsweredMeans(net: Network, config: Config, s: State, name: string, r: Answer)
    requires Valid(net, s) && Answered(net, config, s, name, r)
    ensures AnswerMeans(net, config, s, name, r)
  {
    if NeedsLookup(net, name) {
      var t: nat :| LookedUp(s, name, t, r) && t <= s.now && s.now - t <= Max(0, config.refreshInterval);
      ResolvedDescribes(net, name, t);
      assert Describes(net, name, t, r);
    }
  }

  lemma {:induction false} CachedAnswered(net: Network, config: Config, s: State, name: string)
    requires Valid(net, s) && NeedsLookup(net, name) && Fresh(config, s, name)
    ensures Answered(net, config, s, name, s.cache[name].answer)
    ensures AnswerMeans(net, config, s, name, s.cache[name].answer)
  {
    assert LookedUp(s, name, s.cache[name].time, s.cache[name].answer);
    var k :| s.cleared <= k < |s.lookups| &&
             s.lookups[k] == Lookup(name, s.cache[name].time, s.cache[name].answer);
    AnsweredMeans(net, config, s, name, s.cache[name].answer);
  }

  /** A justified answer, whatever its age. */
  ghost predicate Known(net: Network, s: State, name: string, r: Answer) {
    if NeedsLookup(net, name) then exists t: nat :: LookedUp(s, name, t, r) else r == PlainName(net, name)
  }

  lemma {:induction false} KnownStays(net: Network, a: State, b: State, name: string, r: Answer)
    requires Known(net, a, name, r) && Advanced(a, b)
    ensures Known(net, b, name, r)
  {
    if NeedsLookup(net, name) {
      var t: nat :| LookedUp(a, name, t, r);
      var k :| a.cleared <= k < |a.lookups| && a.lookups[k] == Lookup(name, t, r);
      assert b.lookups[k] == Lookup(name, t, r);
      assert LookedUp(b, name, t, r);
    }
  }

  /** A justified answer of a retry: a known success, or a failure that carries a known last error. */
  ghost predicate Justified(net: Network, config: Config, s: State, name: string, r: Answer) {
    match r
    case Ok(_) => Known(net, s, name, r)
    case Err(e) =>
      && e.RetriesExhausted? && e.maxRetries == config.maxRetries
      && (e.last.Some? <==> config.maxRetries >= 0)
      && (e.last.Some? ==> Known(net, s, name, Err(e.last.value)))
  }

  lemma {:induction false} JustifiedStays(net: Network, config: Config, a: State, b: State, name: string, r: Answer)
    requires Justified(net, config, a, name, r) && Advanced(a, b)
    ensures Justified(net, config, b, name, r)
  {
    if r.Ok? {
      KnownStays(net, a, b, name, r);
    } else if r.error.last.Some? {
      KnownStays(net, a, b, name, Err(r.error.last.value));
    }
  }

  ghost predicate AllJustified(net: Network, config: Config, s: State, names: seq<string>, answers: seq<Answer>) {
    |answers| <= |names| && forall i :: 0 <= i < |answers| ==> Justified(net, config, s, names[i], answers[i])
  }

  lemma {:induction false} AllJustifiedSnoc(net: Network, config: Config, a: State, b: State,
                                            names: seq<string>, answers: seq<Answer>, r: Answer)
    requires AllJustified(net, config, a, names, answers) && Advanced(a, b)
    requires |answers| < |names| && Justified(net, config, b, names[|answers|], r)
    ensures AllJustified(net, config, b, names, answers + [r])
  {
    forall i | 0 <= i < |answers| ensures Justified(net, config, b, names[i], answers[i]) {
      JustifiedStays(net, config, a, b, names[i], answers[i]);
    }
  }

  ghost predicate AllPlain(net: Network, config: Config, names: seq<string>, answers: seq<Answer>) {
    |answers| <= |names| && forall i :: 0 <= i < |answers| ==> answers[i] == PlainRetry(net, config, names[i])
  }

  /** One ResolveName: a justified answer, and at most one new lookup, which is made only if no cached
      answer is fresh and then replaces the cached one. */
  ghost predicate NameStep(net: Network, config: Config, name: string, a: State, b: State, r: Answer) {
    && Advanced(a, b) && b.slept == a.slept
    && Answered(net, config, b, name, r)
    && if b.lookups == a.lookups then
         b.cache == a.cache && b.now - a.now == Idle(a, b) && (NeedsLookup(net, name) ==> Fresh(config, b, name))
       else
         && NeedsLookup(net, name) && |b.lookups| == |a.lookups| + 1
         && b.cache == (if config.enableCache then a.cache[name := Entry(r, b.now)] else a.cache)
         && (config.enableCache && name in a.cache ==>
               a.now + Idle(a, b) - a.cache[name].time > config.refreshInterval)
  }

  /** Sleep(d) returns at once for d <= 0 and otherwise no earlier than asked. */
  ghost predicate SleepStep(d: int, a: State, b: State) {
    && b == a.(now := b.now, slept := a.slept + Max(0, d), slack := b.slack)
    && b.slack >= a.slack && b.now - a.now == Idle(a, b)
  }

  lemma {:induction false} SleepKeepsValid(net: Network, d: int, a: State, b: State)
    requires Valid(net, a) && SleepStep(d, a, b)
    ensures Valid(net, b) && Advanced(a, b)
  {
    forall name | name in b.cache ensures LookedUp(b, name, b.cache[name].time, b.cache[name].answer) {
      assert LookedUp(a, name, a.cache[name].time, a.cache[name].answer);
    }
  }

  /** Recording a lookup that has just returned, with or without caching it. */
  lemma {:induction false} RecordKeepsValid(net: Network, config: Config, a: State, b: State, name: string, r: Answer)
    requires Valid(net, a) && b.now >= a.now && r == Resolved(net, name, b.now)
    requires b == a.(now := b.now, lookups := a.lookups + [Lookup(name, b.now, r)],
                     cache := if config.enableCache then a.cache[name := Entry(r, b.now)] else a.cache)
    ensures Valid(net, b) && LookedUp(b, name, b.now, r)
  {
    assert b.lookups[|a.lookups|] == Lookup(name, b.now, r);
    forall n | n in b.cache ensures LookedUp(b, n, b.cache[n].time, b.cache[n].answer) {
      if n in a.cache && b.cache[n] == a.cache[n] {
        var k :| a.cleared <= k < |a.lookups| && a.lookups[k] == Lookup(n, a.cache[n].time, a.cache[n].answer);
        assert b.lookups[k] == a.lookups[k];
      }
    }
  }

  /** If DNS does not change, a justified answer is the uncached one. */
  lemma {:induction false} StationaryAnswer(net: Network, config: Config, s: State, name: string, r: Answer)
    requires Stationary(net) && Valid(net, s) && Answered(net, config, s, name, r)
    ensures r == PlainName(net, name)
  {
    if NeedsLookup(net, name) {
      var t: nat :| LookedUp(s, name, t, r);
      var host := net.split(name).value.host;
      assert net.lookup(host, t) == net.lookup(host, 0);
    }
  }

  // ---------------------------------------------------------------------------------------------
  // Retrying
  // ---------------------------------------------------------------------------------------------

  /** The retry loop after i attempts that started in state a: `made` lookups, the latest stored when
      Idle was `storedAt`. */
  ghost predicate Retrying(net: Network, config: Config, name: string, a: State, b: State,
                           i: int, made: int, storedAt: int) {
    && Valid(net, b) && Advanced(a, b)
    && 0 <= i <= Max(0, config.maxRetries + 1)
    && made == |b.lookups| - |a.lookups| && 0 <= made <= i
    && (made == 0 ==> b.lookups == a.lookups && b.cache == a.cache && b.now - a.now == Idle(a, b))
    && (!NeedsLookup(net, name) ==> made == 0)
    && (i == 0 ==> b.slept == a.slept)
    && (i > 0 && NeedsLookup(net, name) && !Fresh(config, a, name) ==> made > 0)
    && (made == 1 && !Fresh(config, a, name) ==> storedAt <= b.slack - a.slack)
    && (made > 0 && config.enableCache ==>
          && name in b.cache && b.now - b.cache[name].time == Idle(a, b) - storedAt
          && (made - 1) * (config.refreshInterval + 1) <= storedAt <= Idle(a, b))
  }

  /** Attempt i, counting from 0, has just returned. If the only lookup so far was that of the first
      attempt, a later one found its outcome in the cache. */
  ghost predicate HitLater(net: Network, config: Config, name: string, a: State, c: State, i: int, made: int) {
    i > 0 && made == 1 && NeedsLookup(net, name) && !Fresh(config, a, name) ==> Fresh(config, c, name)
  }

  lemma {:induction false} AttemptMade(net: Network, config: Config, name: string, a: State, b: State, c: State,
                                       i: int, made: int, storedAt: int, r: Answer)
    returns (made': int, storedAt': int)
    requires Retrying(net, config, name, a, b, i, made, storedAt) && i <= config.maxRetries
    requires NameStep(net, config, name, b, c, r) && Valid(net, c)
    ensures Retrying(net, config, name, a, c, i + 1, made', storedAt') && c.slept == b.slept
    ensures HitLater(net, config, name, a, c, i, made')
  {
    if c.lookups == b.lookups {
      return made, storedAt;
    }
    if config.enableCache && made > 0 {
      assert b.now + Idle(b, c) - b.cache[name].time > config.refreshInterval;
      var gap := config.refreshInterval + 1;
      assert (made - 1) * gap + gap == made * gap;
    }
    return made + 1, Idle(a, c);
  }

  lemma {:induction false} SleepKeepsRetrying(net: Network, config: Config, name: string, a: State, b: State,
                                              c: State, i: int, made: int, storedAt: int, d: int)
    requires Retrying(net, config, name, a, b, i, made, storedAt) && i > 0
    requires SleepStep(d, b, c)
    ensures Retrying(net, config, name, a, c, i, made, storedAt)
  {
    SleepKeepsValid(net, d, b, c);
  }

  /** The sleep after attempt i, counting from 0; there is none after the last. */
  function Pause(config: Config, i: nat): int {
    if i < config.maxRetries then Max(0, (i + 1) * config.retryInterval) else 0
  }

  /** The sleeps after the first i attempts. */
  function Backoff(config: Config, i: nat): int {
    if i == 0 then 0 else Backoff(config, i - 1) + Pause(config, i - 1)
  }

  lemma {:induction false} BackoffGrows(config: Config, i: nat, j: nat)
    requires i <= j
    ensures Backoff(config, i) <= Backoff(config, j)
    decreases j - i
  {
    if i < j {
      BackoffGrows(config, i, j - 1);
    }
  }

  /** All of them: RetryInterval*M*(M+1)/2. */
  lemma {:induction false} BackoffSum(config: Config, i: nat)
    requires i <= config.maxRetries
    ensures 2 * Backoff(config, i) == Max(0, config.retryInterval) * (i * (i + 1))
  {
    var q := Max(0, config.retryInterval);
    if i > 0 {
      BackoffSum(config, i - 1);
      assert Pause(config, i - 1) == i * q;
      assert q * ((i - 1) * i) + 2 * (i * q) == q * (i * (i + 1));
    } else {
      assert q * 0 == 0;
    }
  }

  /** What ResolveWithRetry promises about lookups and time. L lookups are L-1 gaps, each longer than
      RefreshInterval, in the time that passed outside them: the sleeps of at most M = MaxRetries
      attempts, plus the slack. An answer that needs a lookup, when no cached one is fresh at the
      start, takes at least one. */
  ghost predicate RetryStep(net: Network, config: Config, name: string, a: State, b: State) {
    var m, made := config.maxRetries, |b.lookups| - |a.lookups|;
    && Advanced(a, b)
    && 0 <= made <= Max(0, m + 1)
    && (!NeedsLookup(net, name) ==> made == 0)
    && b.slept - a.slept <= Backoff(config, Max(0, m))
    && (config.enableCache && made > 0 ==> (made - 1) * (config.refreshInterval + 1) <= Idle(a, b))
    && (m >= 0 && NeedsLookup(net, name) && !Fresh(config, a, name) ==> made > 0)
  }

  lemma {:induction false} RetryEnds(net: Network, config: Config, name: string, a: State, b: State,
                                     i: nat, made: int, storedAt: int)
    requires Retrying(net, config, name, a, b, i, made, storedAt) && (i > 0 || config.maxRetries < 0)
    requires b.slept - a.slept == Backoff(config, i) || (i > 0 && b.slept - a.slept == Backoff(config, i - 1))
    ensures RetryStep(net, config, name, a, b)
  {
    if i > 0 {
      BackoffGrows(config, i - 1, config.maxRetries);
      if i <= config.maxRetries {
        BackoffGrows(config, i, config.maxRetries);
      } else {
        assert Pause(config, i - 1) == 0;
      }
    }
  }

  /** What a failed retry adds: every sleep was made, and if only one lookup was, the last attempt
      repeated its cached outcome, which was then older than all the sleeps together. */
  ghost predicate RetryFailed(net: Network, config: Config, name: string, a: State, b: State) {
    && b.slept - a.slept == Backoff(config, Max(0, config.maxRetries))
    && (config.maxRetries > 0 && |b.lookups| - |a.lookups| == 1 && NeedsLookup(net, name) && !Fresh(config, a, name) ==>
          Fresh(config, b, name) && b.now - b.cache[name].time >= b.slept - a.slept)
  }

  lemma {:induction false} RetryFails(net: Network, config: Config, name: string, a: State, b: State,
                                      i: nat, made: int, storedAt: int)
    requires Retrying(net, config, name, a, b, i, made, storedAt) && i == Max(0, config.maxRetries + 1)
    requires b.slept - a.slept == Backoff(config, i) && HitLater(net, config, name, a, b, i - 1, made)
    ensures RetryFailed(net, config, name, a, b)
  {
    if i > 0 {
      assert Pause(config, i - 1) == 0;
    }
  }

  /** The lookup bound in closed form. */
  lemma {:induction false} LookupBound(net: Network, config: Config, name: string, a: State, b: State)
    requires RetryStep(net, config, name, a, b) && config.enableCache
    requires config.maxRetries >= 0 && config.retryInterval >= 0 && |b.lookups| > |a.lookups|
    ensures var m, made := config.maxRetries, |b.lookups| - |a.lookups|;
            2 * ((made - 1) * (config.refreshInterval + 1))
            <= config.retryInterval * (m * (m + 1)) + 2 * (b.slack - a.slack)
  {
    BackoffSum(config, config.maxRetries);
  }

  /** Retrying is vacuous when all backoff together, and what else takes time, is no longer than
      RefreshInterval: exactly one lookup is made, whether or not it fails. */
  lemma {:induction false} OneLookup(net: Network, config: Config, name: string, a: State, b: State)
    requires RetryStep(net, config, name, a, b)
    requires config.enableCache && config.maxRetries >= 0
    requires NeedsLookup(net, name) && !Fresh(config, a, name)
    requires Backoff(config, config.maxRetries) + b.slack - a.slack <= config.refreshInterval
    ensures |b.lookups| - |a.lookups| == 1
  {
    BackoffGrows(config, 0, config.maxRetries);
    if |b.lookups| - |a.lookups| > 1 {
      AtLeastOnce(|b.lookups| - |a.lookups| - 1, config.refreshInterval + 1);
    }
  }

  /** Exactly when the retries of a failing name are vacuous: with caching on and nothing fresh at the
      start, they make a single lookup only if there is no retry or the backoff is no longer than
      RefreshInterval, and they do if it still is with the time lost elsewhere added. */
  lemma {:induction false} OneLookupExactly(net: Network, config: Config, name: string, a: State, b: State)
    requires RetryStep(net, config, name, a, b) && RetryFailed(net, config, name, a, b)
    requires config.enableCache && config.maxRetries >= 0
    requires NeedsLookup(net, name) && !Fresh(config, a, name)
    ensures var made, backoff := |b.lookups| - |a.lookups|, Backoff(config, config.maxRetries);
            && (made == 1 ==> config.maxRetries == 0 || backoff <= config.refreshInterval)
            && (config.maxRetries == 0 || backoff + b.slack - a.slack <= config.refreshInterval ==> made == 1)
  {
    if Backoff(config, config.maxRetries) + b.slack - a.slack <= config.refreshInterval {
      OneLookup(net, config, name, a, b);
    }
  }

  lemma AtLeastOnce(n: int, x: int)
    requires n >= 1 && x >= 0
    ensures n * x >= x
  {
  }

  /** The default configuration is such: a failing name is looked up once in the three retries, unless
      24 seconds are lost elsewhere. */
  lemma {:induction false} DefaultRetriesLookUpOnce(net: Network, name: string, a: State, b: State)
    requires RetryStep(net, DefaultConfig(), name, a, b)
    requires NeedsLookup(net, name) && !Fresh(DefaultConfig(), a, name)
    requires b.slack - a.slack <= 24_000
    ensures |b.lookups| - |a.lookups| == 1
  {
    BackoffSum(DefaultConfig(), 3);
    OneLookup(net, DefaultConfig(), name, a, b);
  }

  // ---------------------------------------------------------------------------------------------
  // The resolver
  // ---------------------------------------------------------------------------------------------

  datatype Op = Name(name: string) | Retry(name: string) | Servers(names: seq<string>) | Clear

  datatype Reply = One(answer: Answer) | Many(answers: Result<seq<Address>, Error>) | Done

  function PlainReply(net: Network, config: Config, op: Op): Reply {
    match op
    case Name(name) => One(PlainName(net, name))
    case Retry(name) => One(PlainRetry(net, config, name))
    case Servers(names) => Many(PlainServers(net, config, names))
    case Clear => Done
  }

  class DNSResolver {
    const net: Network
    const config: Config
    var cache: map<string, Entry>
    var now: int
    ghost var lookups: seq<Lookup>
    ghost var cleared: nat
    ghost var slept: int
    ghost var slack: int

    ghost function View(): State
      reads this
    {
      State(cache, now, lookups, cleared, slept, slack)
    }

    constructor (net: Network, config: Config)
      ensures this.net == net && this.config == config
      ensures View() == State(map[], 0, [], 0, 0, 0) && Valid(net, View())
    {
      this.net := net;
      this.config := config;
      cache, now := map[], 0;
      lookups, cleared, slept, slack := [], 0, 0, 0;
    }

    method Sleep(d: int)
      modifies this
      ensures SleepStep(d, old(View()), View())
    {
      var overrun: nat :| true;
      now := now + Max(0, d) + overrun;
      slept := slept + Max(0, d);
      slack := slack + overrun;
    }

    method PickAddress(ips: seq<Ip>) returns (ip: Ip)
      requires ips != []
      ensures ip == Preferred(ips) && IsChoice(ips, ip)
    {
      for i := 0 to |ips|
        invariant forall j :: 0 <= j < i ==> ips[j].V6?
      {
        if ips[i].V4? {
          PreferredIsFirstV4(ips, i);
          assert ChoiceAt(ips, i);
          return ips[i];
        }
      }
      PreferredElseFirst(ips);
      assert ChoiceAt(ips, 0);
      return ips[0];
    }

    /** A real lookup, taking however long it takes. */
    method DoResolve(name: string) returns (r: Answer)
      requires now >= 0
      modifies this
      ensures now >= old(now) && r == Resolved(net, name, now) && Describes(net, name, now, r)
      ensures View() == old(View()).(now := now, lookups := old(lookups) + [Lookup(name, now, r)])
    {
      var duration: nat :| true;
      var split := net.split(name);
      if split.None? {
        r := Err(Malformed);
      } else {
        now := now + duration;
        var ips := net.lookup(split.value.host, now);
        if ips.None? {
          r := Err(LookupFailed(split.value.host));
        } else if ips.value == [] {
          r := Err(NoAddress(split.value.host));
        } else {
          var ip := PickAddress(ips.value);
          r := Ok(Joined(ip, split.value.port));
        }
      }
      ResolvedDescribes(net, name, now);
      lookups := lookups + [Lookup(name, now, r)];
    }

    method GetCachedResult(name: string) returns (hit: Option<Answer>)
      ensures hit.Some? <==> Fresh(config, View(), name)
      ensures hit.Some? <==>
                config.enableCache && name in cache && now - cache[name].time <= config.refreshInterval
      ensures hit.Some? ==> hit.value == cache[name].answer
    {
      if !config.enableCache || name !in cache || now - cache[name].time > config.refreshInterval {
        return None;
      }
      return Some(cache[name].answer);
    }

    method SetCachedResult(name: string, answer: Answer)
      requires now >= 0
      modifies this`cache
      ensures cache == if config.enableCache then old(cache)[name := Entry(answer, now)] else old(cache)
    {
      if config.enableCache {
        cache := cache[name := Entry(answer, now)];
      }
    }

    /** Afterwards every cached answer has to come from a new lookup. */
    method ClearCache()
      requires Valid(net, View())
      modifies this
      ensures Valid(net, View())
      ensures View() == if config.enableCache then old(View()).(cache := map[], cleared := |lookups|) else old(View())
    {
      if config.enableCache {
        cache := map[];
        cleared := |lookups|;
      }
    }

    method ResolveName(name: string) returns (r: Answer)
      requires Valid(net, View())
      modifies this
      ensures Valid(net, View()) && NameStep(net, config, name, old(View()), View(), r)
      ensures AnswerMeans(net, config, View(), name, r)
    {
      ghost var before := View();
      Sleep(0);   // whatever delay precedes the call
      SleepKeepsValid(net, 0, before, View());
      var invalid := Validate(net, name);
      if invalid.Some? {
        return Err(invalid.value);
      }
      if IsIpAddress(net, name) {
        return Ok(Literal(name));
      }
      var hit := GetCachedResult(name);
      if hit.Some? {
        CachedAnswered(net, config, View(), name);
        return hit.value;
      }
      ghost var called := View();
      r := DoResolve(name);
      SetCachedResult(name, r);
      RecordKeepsValid(net, config, called, View(), name, r);
      AnsweredMeans(net, config, View(), name, r);
    }

    /** One attempt of the retry loop. */
    method Try(name: string, i: nat, ghost start: State, ghost made: int, ghost storedAt: int)
      returns (r: Answer, ghost made': int, ghost storedAt': int)
      requires Retrying(net, config, name, start, View(), i, made, storedAt) && i <= config.maxRetries
      modifies this
      ensures Retrying(net, config, name, start, View(), i + 1, made', storedAt') && slept == old(slept)
      ensures Answered(net, config, View(), name, r)
      ensures HitLater(net, config, name, start, View(), i, made')
      ensures Stationary(net) || !NeedsLookup(net, name) ==> r == PlainName(net, name)
    {
      ghost var before := View();
      r := ResolveName(name);
      made', storedAt' := AttemptMade(net, config, name, start, before, View(), i, made, storedAt, r);
      if Stationary(net) {
        StationaryAnswer(net, config, View(), name, r);
      }
    }

    /** The sleep after a failed attempt i; there is none after the last. */
    method SleepAfter(ghost name: string, i: nat, ghost start: State, ghost made: int, ghost storedAt: int)
      requires Retrying(net, config, name, start, View(), i + 1, made, storedAt)
      modifies this
      ensures Retrying(net, config, name, start, View(), i + 1, made, storedAt)
      ensures slept == old(slept) + Pause(config, i)
      ensures i >= config.maxRetries ==> View() == old(View())
    {
      if i < config.maxRetries {
        ghost var before, d := View(), (i + 1) * config.retryInterval;
        Sleep((i + 1) * config.retryInterval);
        SleepKeepsRetrying(net, config, name, start, before, View(), i + 1, made, storedAt, d);
      }
    }

    /** One turn of the retry loop. */
    method Attempt(name: string, i: nat, ghost start: State, ghost made: int, ghost storedAt: int)
      returns (r: Answer, ghost made': int, ghost storedAt': int)
      requires Retrying(net, config, name, start, View(), i, made, storedAt) && i <= config.maxRetries
      modifies this
      ensures Retrying(net, config, name, start, View(), i + 1, made', storedAt')
      ensures slept == old(slept) + if r.Ok? then 0 else Pause(config, i)
      ensures r.Ok? || i == config.maxRetries ==> Answered(net, config, View(), name, r)
      ensures i == config.maxRetries ==> HitLater(net, config, name, start, View(), i, made')
      ensures Stationary(net) || !NeedsLookup(net, name) ==> r == PlainName(net, name)
    {
      r, made', storedAt' := Try(name, i, start, made, storedAt);
      if r.Err? {
        SleepAfter(name, i, start, made', storedAt');
      }
    }

    /** Linear backoff; what it promises about lookups and time is RetryStep, and RetryFailed if it
        fails. A failure after retries carries the last attempt's error, itself a justified answer. */
    method ResolveWithRetry(name: string) returns (r: Answer)
      requires Valid(net, View())
      modifies this
      ensures Valid(net, View()) && RetryStep(net, config, name, old(View()), View())
      ensures Stationary(net) || !NeedsLookup(net, name) ==> r == PlainRetry(net, config, name)
      ensures r.Ok? ==> Answered(net, config, View(), name, r)
      ensures r.Err? ==> RetryFailed(net, config, name, old(View()), View())
      ensures r.Err? ==> r.error.RetriesExhausted? && r.error.maxRetries == config.maxRetries
      ensures Justified(net, config, View(), name, r)
      ensures r.Ok? ==> AnswerMeans(net, config, View(), name, r)
      ensures r.Err? && config.maxRetries >= 0 ==> AnswerMeans(net, config, View(), name, Err(r.error.last.value))
      ensures r.Err? && config.maxRetries >= 0 ==>
                r.error.last.Some? && Answered(net, config, View(), name, Err(r.error.last.value))
    {
      ghost var start := View();
      ghost var made, storedAt := 0, 0;
      var last: Answer := Err(EmptyName);   // the latest attempt's answer, once there is one
      var i := 0;
      while i <= config.maxRetries
        invariant Retrying(net, config, name, start, View(), i, made, storedAt)
        invariant slept - start.slept == Backoff(config, i)
        invariant last.Err?
        invariant i == config.maxRetries + 1 ==> HitLater(net, config, name, start, View(), i - 1, made)
        invariant 0 < i == config.maxRetries + 1 ==> Answered(net, config, View(), name, last)
        invariant i > 0 && (Stationary(net) || !NeedsLookup(net, name)) ==> last == PlainName(net, name)
      {
        last, made, storedAt := Attempt(name, i, start, made, storedAt);
        i := i + 1;
        if last.Ok? {
          RetryEnds(net, config, name, start, View(), i, made, storedAt);
          AnsweredMeans(net, config, View(), name, last);
          return last;
        }
      }
      RetryEnds(net, config, name, start, View(), i, made, storedAt);
      RetryFails(net, config, name, start, View(), i, made, storedAt);
      if i > 0 {
        AnsweredMeans(net, config, View(), name, last);
      }
      return Err(RetriesExhausted(config.maxRetries, if i == 0 then None else Some(last.error)));
    }

    /** `answers` are the outcomes for the names one by one: each is justified, the successes and the
        last errors of the failures alike, by the input itself or a real lookup of that name since the
        last ClearCache. */
    method ResolveNameServers(names: seq<string>) returns (r: Result<seq<Address>, Error>, ghost answers: seq<Answer>)
      requires Valid(net, View())
      modifies this
      ensures Valid(net, View()) && Advanced(old(View()), View())
      ensures |answers| == |names| && r == ListAnswer(answers)
      ensures forall i :: 0 <= i < |names| ==> Justified(net, config, View(), names[i], answers[i])
      ensures Stationary(net) ==> r == PlainServers(net, config, names)
    {
      answers := [];
      if names == [] {
        return Err(NoNameServers), [];
      }
      var resolved: seq<Address>, lastErr: Option<Error> := [], None;
      for i := 0 to |names|
        invariant Valid(net, View()) && Advanced(old(View()), View())
        invariant |answers| == i && (resolved, lastErr) == Collected(answers)
        invariant AllJustified(net, config, View(), names, answers)
        invariant Stationary(net) ==> AllPlain(net, config, names, answers)
      {
        ghost var before := View();
        var addr := ResolveWithRetry(names[i]);
        AllJustifiedSnoc(net, config, before, View(), names, answers, addr);
        ghost var known := answers;
        answers := answers + [addr];
        assert answers[..i] == known;
        if addr.Err? {
          lastErr := Some(addr.error);
          continue;
        }
        resolved := resolved + [addr.value];
      }
      if Stationary(net) {
        assert answers == seq(|names|, i requires 0 <= i < |names| => PlainRetry(net, config, names[i]));
      }
      if resolved == [] {
        return Err(NoneResolved(lastErr)), answers;
      }
      return Ok(resolved), answers;
    }

    /** Cache refinement: if DNS does not change, any sequence of operations, wherever the cache is
        cleared in between, is answered as a resolver without a cache would answer it. */
    method Perform(ops: seq<Op>) returns (replies: seq<Reply>)
      requires Valid(net, View())
      modifies this
      ensures Valid(net, View()) && |replies| == |ops|
      ensures Stationary(net) ==> forall i :: 0 <= i < |ops| ==> replies[i] == PlainReply(net, config, ops[i])
    {
      replies := [];
      for i := 0 to |ops|
        invariant Valid(net, View()) && |replies| == i
        invariant Stationary(net) ==> forall j :: 0 <= j < i ==> replies[j] == PlainReply(net, config, ops[j])
      {
        var reply := PerformOne(ops[i]);
        replies := replies + [reply];
      }
    }

    method PerformOne(op: Op) returns (reply: Reply)
      requires Valid(net, View())
      modifies this
      ensures Valid(net, View())
      ensures Stationary(net) ==> reply == PlainReply(net, config, op)
    {
      match op
      case Name(name) =>
        var r := ResolveName(name);
        if Stationary(net) {
          StationaryAnswer(net, config, View(), name, r);
        }
        reply := One(r);
      case Retry(name) =>
        var r := ResolveWithRetry(name);
        reply := One(r);
      case Servers(names) =>
        var r, _ := ResolveNameServers(names);
        reply := Many(r);
      case Clear =>
        ClearCache();
        reply := Done;
    }
  }
}

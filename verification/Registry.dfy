/**
 The process-wide registry of named clients and its default name, over any run of Register,
 CloseAll and successful GracefulShutdown. Whether a client could be set up is a parameter.
 */
module Registry {
  import opened Wrappers

  const DEFAULT_NAME := "default"

  datatype Error = AlreadyExists | InvalidArgument | SetupFailed | NotFound

  /** What is wrong, if anything, once the name is known to be free. */
  datatype Setup = Works | NoNameServers | Fails

  datatype State = State(
    clients: map<string, nat>,
    defaultName: string,
    log: seq<string>,   // names registered since the last CloseAll, in order
    given: seq<nat>,    // their clients
    cleared: nat        // how many of them a GracefulShutdown has cleared
  )

  datatype Op = Register(name: string, setup: Setup, client: nat) | CloseAll | GracefulShutdown

  function EffectiveName(name: string): string {
    if name == "" then DEFAULT_NAME else name
  }

  function RegisterError(s: State, name: string, setup: Setup): Option<Error> {
    if EffectiveName(name) in s.clients then Some(AlreadyExists)
    else match setup
         case Works => None
         case NoNameServers => Some(InvalidArgument)
         case Fails => Some(SetupFailed)
  }

  function Next(s: State, op: Op): State {
    match op
    case Register(name, setup, client) =>
      if RegisterError(s, name, setup).Some? then s
      else
        State(s.clients[EffectiveName(name) := client],
              if s.defaultName == "" then EffectiveName(name) else s.defaultName,
              s.log + [EffectiveName(name)], s.given + [client], s.cleared)
    case CloseAll => State(map[], "", [], [], 0)
    case GracefulShutdown => s.(clients := map[], cleared := |s.log|)
  }

  function Exec(s: State, ops: seq<Op>): State
    decreases |ops|
  {
    if ops == [] then s else Exec(Next(s, ops[0]), ops[1..])
  }

  function Start(): State {
    State(map[], "", [], [], 0)
  }

  function Default(s: State): Result<nat, Error> {
    if s.defaultName in s.clients then Ok(s.clients[s.defaultName]) else Err(NotFound)
  }

  class ClientRegistry {
    var clients: map<string, nat>
    var defaultName: string
    ghost var log: seq<string>
    ghost var given: seq<nat>
    ghost var cleared: nat

    ghost function View(): State
      reads this
    {
      State(clients, defaultName, log, given, cleared)
    }

    constructor ()
      ensures View() == Start()
    {
      clients, defaultName, log, given, cleared := map[], "", [], [], 0;
    }

    method Register(name: string, setup: Setup, client: nat) returns (err: Option<Error>)
      modifies this
      ensures err == RegisterError(old(View()), name, setup)
      ensures View() == Next(old(View()), Op.Register(name, setup, client))
      ensures var effective := if name == "" then "default" else name;
              && (effective in old(clients) ==> err == Some(AlreadyExists))
              && (effective !in old(clients) ==>
                    err == if setup == NoNameServers then Some(InvalidArgument)
                           else if setup == Fails then Some(SetupFailed) else None)
              && (err.Some? ==> View() == old(View()))
              && (err.None? ==>
                    && clients == old(clients)[effective := client]
                    && defaultName == if old(defaultName) == "" then effective else old(defaultName))
    {
      var effective := if name == "" then DEFAULT_NAME else name;
      if effective in clients {
        return Some(AlreadyExists);
      }
      if setup == NoNameServers {
        return Some(InvalidArgument);
      }
      if setup == Fails {
        return Some(SetupFailed);
      }
      clients := clients[effective := client];
      if defaultName == "" {
        defaultName := effective;
      }
      log, given := log + [effective], given + [client];
      return None;
    }

    method CloseAll()
      modifies this
      ensures View() == Next(old(View()), Op.CloseAll)
      ensures clients == map[] && defaultName == ""
    {
      clients := map[];
      defaultName := "";
      log, given, cleared := [], [], 0;
    }

    /** The map is replaced; the default name is not touched. */
    method FinishGracefulShutdown()
      modifies this
      ensures View() == Next(old(View()), Op.GracefulShutdown)
      ensures clients == map[] && defaultName == old(defaultName)
    {
      clients := map[];
      cleared := |log|;
    }

    method GetDefault() returns (r: Result<nat, Error>)
      ensures r == Default(View())
      ensures r == if defaultName in clients then Ok(clients[defaultName]) else Err(NotFound)
    {
      if defaultName in clients {
        return Ok(clients[defaultName]);
      }
      return Err(NotFound);
    }
  }

  /** The default is the first name registered since CloseAll; the map holds exactly the names
      registered since it was last emptied, each with the client it was registered with. */
  ghost predicate Inv(s: State) {
    && s.cleared <= |s.log| == |s.given|
    && (forall i :: s.cleared <= i < |s.log| ==> s.log[i] in s.clients && s.clients[s.log[i]] == s.given[i])
    && s.defaultName == (if s.log == [] then "" else s.log[0])
    && (forall name :: name in s.clients <==> name in s.log[s.cleared..])
    && "" !in s.log
  }

  lemma {:induction false} RegisterInv(s: State, name: string, client: nat)
    requires Inv(s) && RegisterError(s, name, Works).None?
    ensures Inv(Next(s, Register(name, Works, client)))
  {
    var n := EffectiveName(name);
    var t := Next(s, Register(name, Works, client));
    assert n != "" && t.log == s.log + [n];
    assert t.log[s.cleared..] == s.log[s.cleared..] + [n];
    forall i | s.cleared <= i < |t.log| ensures t.log[i] in t.clients && t.clients[t.log[i]] == t.given[i] {
      assert i < |s.log| ==> s.log[i] in s.clients && s.log[i] != n;
    }
  }

  lemma {:induction false} NextInv(s: State, op: Op)
    requires Inv(s)
    ensures Inv(Next(s, op))
  {
    if op.Register? {
      if RegisterError(s, op.name, op.setup).None? {
        RegisterInv(s, op.name, op.client);
      }
    }
  }

  lemma {:induction false} RunInv(s: State, ops: seq<Op>)
    requires Inv(s)
    ensures Inv(Exec(s, ops))
    decreases |ops|
  {
    if ops != [] {
      NextInv(s, ops[0]);
      RunInv(Next(s, ops[0]), ops[1..]);
    }
  }

  lemma {:induction false} NothingCleared(s: State, ops: seq<Op>)
    requires s.cleared == 0 && forall i :: 0 <= i < |ops| ==> !ops[i].GracefulShutdown?
    ensures Exec(s, ops).cleared == 0
    decreases |ops|
  {
    if ops != [] {
      NothingCleared(Next(s, ops[0]), ops[1..]);
    }
  }

  /** Runs of Register and CloseAll: the default name is empty exactly when the map is, it is otherwise
      the first name registered since the last CloseAll, and Default returns the client registered
      then. */
  lemma {:induction false} DefaultIsFirst(ops: seq<Op>)
    requires forall i :: 0 <= i < |ops| ==> !ops[i].GracefulShutdown?
    ensures var s := Exec(Start(), ops);
            && (s.defaultName == "" <==> s.clients == map[])
            && (s.clients != map[] ==> s.log != [] && s.defaultName == s.log[0])
            && (s.clients != map[] ==> s.given != [] && Default(s) == Ok(s.given[0]))
  {
    RunInv(Start(), ops);
    NothingCleared(Start(), ops);
    var s := Exec(Start(), ops);
    if s.log != [] {
      assert s.log[0] in s.log[0..];
      assert s.log[0] in s.clients;
    } else {
      assert forall name :: name !in s.clients;
    }
  }

  /** With graceful shutdowns, Default succeeds exactly when the first name since CloseAll has been
      registered again since the map was last emptied; it returns the client of that registration. */
  lemma {:induction false} DefaultExactly(ops: seq<Op>)
    ensures var s := Exec(Start(), ops);
            && s.cleared <= |s.log| == |s.given|
            && (Default(s).Ok? <==> s.log != [] && s.log[0] in s.log[s.cleared..])
            && (forall i :: s.cleared <= i < |s.log| && s.log[i] == s.log[0] ==> Default(s) == Ok(s.given[i]))
            && (Default(s).Err? ==> Default(s).error == NotFound)
  {
    RunInv(Start(), ops);
    var s := Exec(Start(), ops);
    assert "" !in s.log[s.cleared..];
  }

  /** So after a successful GracefulShutdown a newly registered client need not become the default. */
  lemma {:induction false} StaleDefault(client: nat)
    ensures var s := Exec(Start(), [Register("a", Works, client), GracefulShutdown, Register("b", Works, client)]);
            s.clients == map["b" := client] && s.defaultName == "a" && Default(s) == Err(NotFound)
  {
    var ops := [Register("a", Works, client), GracefulShutdown, Register("b", Works, client)];
    var s1 := Next(Start(), ops[0]);
    var s2 := Next(s1, ops[1]);
    var s3 := Next(s2, ops[2]);
    assert Exec(Start(), ops) == Exec(s1, ops[1..]);
    assert Exec(s1, ops[1..]) == Exec(s2, ops[2..]);
    assert Exec(s2, ops[2..]) == Exec(s3, ops[3..]);
  }

  /** A registered name keeps its client until the map is emptied. */
  lemma {:induction false} NeverOverwritten(s: State, ops: seq<Op>, name: string)
    requires name in s.clients
    requires forall i :: 0 <= i < |ops| ==> ops[i].Register?
    ensures name in Exec(s, ops).clients && Exec(s, ops).clients[name] == s.clients[name]
    decreases |ops|
  {
    if ops != [] {
      NeverOverwritten(Next(s, ops[0]), ops[1..], name);
    }
  }
}

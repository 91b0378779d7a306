/** Properties of the connection manager that relate several steps: the
    invariant is kept by every step, launch is idempotent, a name is never
    launched twice while it is running, disconnect and re-launch give a fresh
    connection, a failing lifecycle task that is not cancelled releases its
    waiters, and the task-group ownership protocol. */
module ManagerProperties {
  import opened Base
  import opened ServerConnection
  import opened ConnectionManager

  // ----- the invariant ---------------------------------------------------

  lemma InitialValid(registry: Registry)
    ensures Valid(Initial(registry))
  {
  }

  /** Every enabled step keeps the invariant. */
  lemma NextPreservesValid(w: World, a: Action)
    requires Valid(w) && Enabled(w, a)
    ensures Valid(Next(w, a))
  {
    match a
    case DoEnter(task) =>
    case DoExit(task, raises) =>
      DisconnectAllPreservesValid(w);
    case DoLaunch(name, hook) =>
    case DoDisconnect(name) =>
    case DoDisconnectAll =>
      DisconnectAllPreservesValid(w);
    case DoOpenTransport(id, defaults) =>
      StepOnOneConnPreservesValid(w, id, Next(w, a));
    case DoMakeSession(id, factory) =>
      StepOnOneConnPreservesValid(w, id, Next(w, a));
    case DoInitialize(id, h, k) =>
      StepOnOneConnPreservesValid(w, id, Next(w, a));
    case DoCrash(id, reason) =>
      StepOnOneConnPreservesValid(w, id, Next(w, a));
    case DoUnwind(id, ok) =>
      StepOnOneConnPreservesValid(w, id, Next(w, a));
  }

  lemma DisconnectAllPreservesValid(w: World)
    requires Valid(w)
    ensures Valid(DisconnectAll(w))
  {
    var r := DisconnectAll(w);
    forall id | id in r.conns
      ensures id < r.nextConn && ConnOk(r.conns[id])
    {
      assert r.conns[id] == w.conns[id] || r.conns[id] == RequestShutdown(w.conns[id]);
    }
    forall id | id in r.conns && !r.conns[id].phase.Scheduled?
      ensures Started(r, id)
    {
      assert Started(w, id);
    }
  }

  /** A lifecycle step rewrites one connection, keeping its name and the
      per-connection invariant, and moves it out of `Scheduled` only when its
      task was started. */
  lemma StepOnOneConnPreservesValid(w: World, id: ConnId, r: World)
    requires Valid(w) && Runs(w, id)
    requires r.(conns := w.conns) == w && r.conns.Keys == w.conns.Keys
    requires forall x :: x in w.conns && x != id ==> r.conns[x] == w.conns[x]
    requires r.conns[id].name == w.conns[id].name && ConnOk(r.conns[id])
    ensures Valid(r)
  {
    forall x | x in r.conns && !r.conns[x].phase.Scheduled?
      ensures Started(r, x)
    {
      assert Started(w, x);
    }
  }

  /** Any schedule of steps keeps the invariant. */
  lemma {:induction false} RunPreservesValid(w: World, schedule: seq<Action>)
    requires Valid(w)
    ensures Valid(Run(w, schedule))
    decreases |schedule|
  {
    if |schedule| > 0 {
      if Enabled(w, schedule[0]) {
        NextPreservesValid(w, schedule[0]);
        RunPreservesValid(Next(w, schedule[0]), schedule[1..]);
      } else {
        RunPreservesValid(w, schedule[1..]);
      }
    }
  }

  // ----- launch ------------------------------------------------------------

  lemma CountServerSnoc(tasks: seq<TaskRecord>, t: TaskRecord, name: string)
    ensures CountServer(tasks + [t], name) == CountServer(tasks, name) + (if t.server == name then 1 else 0)
  {
  }

  /** Launching a name that is not running starts exactly one lifecycle task,
      counted against that name only. */
  lemma LaunchStartsOneTask(w: World, name: string, hook: Option<string>)
    requires w.tg.Some? && w.tg.value in w.openGroups
    requires name in w.registry.configs && name !in w.table
    ensures var s := Launch(w, name, hook);
      && s.out == Ok(w.nextConn)
      && Launches(s.world, name) == Launches(w, name) + 1
      && forall m :: m != name ==> Launches(s.world, m) == Launches(w, m)
  {
    var s := Launch(w, name, hook);
    forall m
      ensures Launches(s.world, m) == Launches(w, m) + (if m == name then 1 else 0)
    {
      CountServerSnoc(w.started, TaskRecord(w.nextConn, name), m);
    }
  }

  /** Launching a running name again returns the same connection and changes
      neither the table, the connections nor the started tasks. */
  lemma LaunchIdempotent(w: World, name: string, hook1: Option<string>, hook2: Option<string>)
    requires Launch(w, name, hook1).out.Ok?
    ensures var s1 := Launch(w, name, hook1);
      var s2 := Launch(s1.world, name, hook2);
      && s2.out == s1.out
      && s2.world.table == s1.world.table
      && s2.world.conns == s1.world.conns
      && s2.world.started == s1.world.started
  {
  }

  /** Successive launches of one name, each with its own hook argument. */
  function LaunchEach(w: World, name: string, hooks: seq<Option<string>>): World
    decreases |hooks|
  {
    if |hooks| == 0 then w else LaunchEach(Launch(w, name, hooks[0]).world, name, hooks[1..])
  }

  lemma {:induction false} LaunchEachWhileRunning(w: World, name: string, hooks: seq<Option<string>>)
    requires w.tg.Some? && name in w.registry.configs && name in w.table
    ensures var r := LaunchEach(w, name, hooks);
      r.table == w.table && r.conns == w.conns && r.started == w.started
    decreases |hooks|
  {
    if |hooks| > 0 {
      LaunchEachWhileRunning(Launch(w, name, hooks[0]).world, name, hooks[1..]);
    }
  }

  /** However many `get_server` callers reach `launch_server` for a name that is
      not running, exactly one lifecycle task is started for it, and every
      caller after the first finds the connection the first one inserted. */
  lemma {:induction false} ManyLaunchesStartOneTask(w: World, name: string, hooks: seq<Option<string>>)
    requires w.tg.Some? && w.tg.value in w.openGroups
    requires name in w.registry.configs && name !in w.table
    requires |hooks| > 0
    ensures var r := LaunchEach(w, name, hooks);
      && Launches(r, name) == Launches(w, name) + 1
      && (forall m :: m != name ==> Launches(r, m) == Launches(w, m))
      && name in r.table && r.table[name] == w.nextConn
  {
    var s := Launch(w, name, hooks[0]);
    LaunchStartsOneTask(w, name, hooks[0]);
    LaunchEachWhileRunning(s.world, name, hooks[1..]);
  }

  // ----- disconnect ------------------------------------------------------

  /** After `disconnect_server(name)` the next launch of `name` builds a brand
      new connection, while the old one keeps its shutdown request. */
  lemma DisconnectThenLaunchIsFresh(w: World, name: string, hook: Option<string>)
    requires Valid(w) && name in w.table
    requires w.tg.Some? && name in w.registry.configs
    ensures var previous := w.table[name];
      var s := Launch(Disconnect(w, name), name, hook);
      && name in s.world.table
      && s.world.table[name] != previous
      && s.world.table[name] !in w.conns
      && s.world.conns[previous].shutdown
  {
  }

  /** `disconnect_all` on an empty table changes nothing, and a second
      `disconnect_all` right after the first changes nothing either. */
  lemma DisconnectAllTwice(w: World)
    ensures DisconnectAll(DisconnectAll(w)) == DisconnectAll(w)
  {
  }

  // ----- waiting for initialization ------------------------------------

  /** A `get_server` caller waits exactly while the lifecycle task has not yet
      reached its steady state or failed. */
  lemma WaitingIffInFlight(w: World, id: ConnId)
    requires Valid(w) && id in w.conns
    ensures FinishGetServer(w, id) == StillWaiting <==>
      w.conns[id].phase.Scheduled? || w.conns[id].phase.TransportOpen? || w.conns[id].phase.SessionOpen?
  {
  }

  /** A failure anywhere before the steady state releases every waiter: the
      checked wait raises instead of hanging. */
  lemma FailureReleasesWaiters(w: World, id: ConnId, reason: string)
    requires Valid(w) && Runs(w, id)
    requires w.conns[id].phase.Scheduled? || w.conns[id].phase.TransportOpen? || w.conns[id].phase.SessionOpen?
    ensures var r := Crash(w, id, reason);
      && FinishGetServer(r, id) != StillWaiting
      && FinishGetServerChecked(r, id) == Raises(InitializationFailed(w.conns[id].name))
  {
  }

  /** A session or transport failure in the steady state ends the task through
      the failure arm without any shutdown request: the connection is failed
      but stays in the table until it is disconnected. */
  lemma SteadyStateCrashFails(w: World, id: ConnId, reason: string)
    requires Valid(w) && Runs(w, id) && w.conns[id].phase.Serving?
    ensures var r := Crash(w, id, reason);
      && Valid(r)
      && r.conns[id].phase == Failed(Raised(reason))
      && r.conns[id].shutdown == w.conns[id].shutdown
      && r.table == w.table
  {
    StepOnOneConnPreservesValid(w, id, Crash(w, id, reason));
  }

  /** The initialized event is set only after the handshake and the init hook
      have returned, or by the failure arm. */
  lemma InitializedOnlyAfterInitOrFailure(w: World, id: ConnId)
    requires Valid(w) && id in w.conns && w.conns[id].initialized
    ensures InitCompleted(w.conns[id]) || w.conns[id].phase.Failed?
  {
  }

  /** A successful `initialize_session` leaves the connection serving with the
      session its task created, and the checked wait then returns it. */
  lemma SuccessfulInitReturnsConnection(w: World, id: ConnId, hookOk: bool)
    requires Valid(w) && Runs(w, id) && w.conns[id].phase.SessionOpen?
    requires w.conns[id].hook.None? || hookOk
    ensures var r := Initialize(w, id, true, hookOk);
      && r.conns[id].phase == Serving
      && r.conns[id].session == w.conns[id].session
      && FinishGetServerChecked(r, id) == Returned(id)
  {
  }

  /** As written, `get_server` returns a connection whose handshake raised:
      `create_session` stored the session before `initialize()` ran, so the
      `session is None` check does not see the failure. */
  lemma FailedHandshakeIsReturned(w: World, id: ConnId, hookOk: bool)
    requires Valid(w) && Runs(w, id) && w.conns[id].phase.SessionOpen?
    ensures var r := Initialize(w, id, false, hookOk);
      && r.conns[id].phase == Failed(HandshakeFailed)
      && FinishGetServer(r, id) == Returned(id)
      && FinishGetServerChecked(r, id) == Raises(InitializationFailed(w.conns[id].name))
  {
  }

  /** The same with a failing init hook after a successful handshake. */
  lemma FailedHookIsReturned(w: World, id: ConnId)
    requires Valid(w) && Runs(w, id) && w.conns[id].phase.SessionOpen? && w.conns[id].hook.Some?
    ensures var r := Initialize(w, id, true, false);
      && r.conns[id].phase == Failed(HookFailed)
      && FinishGetServer(r, id) == Returned(id)
      && FinishGetServerChecked(r, id) == Raises(InitializationFailed(w.conns[id].name))
  {
  }

  /** A concrete run that shows it: one registered stdio server "alpha"; the
      manager is entered, "alpha" is launched, its transport opens, its session
      is created, and the handshake raises. */
  lemma FailedHandshakeExample(factory: SessionFactory)
    ensures var config := ServerConfig("stdio", Some("server"), [], None, None, None);
      var w := Run(Initial(Registry(map["alpha" := config], map[])),
        [DoEnter("main"), DoLaunch("alpha", None), DoOpenTransport(0, map[]),
         DoMakeSession(0, factory), DoInitialize(0, false, true)]);
      && 0 in w.conns
      && w.conns[0].phase == Failed(HandshakeFailed)
      && FinishGetServer(w, 0) == Returned(0)
  {
    var config := ServerConfig("stdio", Some("server"), [], None, None, None);
    var w0 := Initial(Registry(map["alpha" := config], map[]));
    var schedule := [DoEnter("main"), DoLaunch("alpha", None), DoOpenTransport(0, map[]),
                     DoMakeSession(0, factory), DoInitialize(0, false, true)];
    var w1 := Enter(w0, "main");
    assert w1.registry == w0.registry && w1.tg == Some(0) && 0 in w1.openGroups;
    assert Run(w0, schedule) == Run(w1, schedule[1..]);
    var w2 := Launch(w1, "alpha", None).world;
    assert w2.started == [TaskRecord(0, "alpha")];
    assert w2.started[0].conn == 0;
    assert Run(w1, schedule[1..]) == Run(w2, schedule[2..]);
    var w3 := OpenTransport(w2, 0, map[]);
    assert w3.started[0].conn == 0;
    assert Run(w2, schedule[2..]) == Run(w3, schedule[3..]);
    var w4 := MakeSession(w3, 0, factory);
    assert w4.started[0].conn == 0;
    assert Run(w3, schedule[3..]) == Run(w4, schedule[4..]);
    var w5 := Initialize(w4, 0, false, true);
    assert Run(w4, schedule[4..]) == w5;
  }

  /** The fast path hands back a running connection whatever its state, for
      instance one whose lifecycle task has not even opened its transport. */
  lemma FastPathIgnoresReadiness(w: World, name: string, hook: Option<string>)
    requires w.tg.Some? && name in w.registry.configs && name !in w.table
    ensures var s := Launch(w, name, hook);
      && FastPath(s.world, name) == Some(w.nextConn)
      && !s.world.conns[w.nextConn].initialized
  {
  }

  // ----- task-group ownership ------------------------------------------

  /** A nested enter, from any task, keeps the recorded owner and the group. */
  lemma NestedEnterKeepsOwner(w: World, outer: string, inner: string)
    ensures Enter(Enter(w, outer), inner).slot == Enter(w, outer).slot
    ensures w.slot.NoGroup? ==> Enter(Enter(w, outer), inner).slot.owner == outer
  {
  }

  /** A non-owner exit disconnects everything but leaves the group running. */
  lemma NonOwnerExitKeepsGroup(w: World, owner: string, other: string, raises: bool)
    requires w.slot.NoGroup? && Valid(w) && owner != other
    ensures var w1 := Enter(Enter(w, owner), other);
      var r := Exit(w1, other, raises);
      && r.slot == w1.slot
      && w.nextGroup in r.openGroups
      && r.table == map[]
  {
  }

  /** Balanced nesting: the inner exit leaves the group to its owner, whose
      exit then closes it and clears the context. */
  lemma BalancedNestingClearsGroup(w: World, owner: string, other: string)
    requires w.slot.NoGroup? && Valid(w) && owner != other
    ensures var inner := Exit(Enter(Enter(w, owner), other), other, false);
      var r := Exit(inner, owner, false);
      && inner.slot == HasGroup(w.nextGroup, owner)
      && r.slot == NoGroup
      && w.nextGroup !in r.openGroups
  {
  }

  /** When the owner's group exit raises, the context keeps pointing at the
      closed group; the next enter adopts it and a launch of a new name then
      leaves an entry in the table with no lifecycle task behind it. */
  lemma RaisingExitStrandsLaunch(w: World, owner: string, next: string, name: string, hook: Option<string>)
    requires w.slot.NoGroup? && Valid(w)
    requires name in w.registry.configs
    ensures var w1 := Exit(Enter(w, owner), owner, true);
      var w2 := Enter(w1, next);
      var s := Launch(w2, name, hook);
      && w1.slot == HasGroup(w.nextGroup, owner)
      && w.nextGroup !in w1.openGroups
      && s.out == Err(TaskGroupClosed)
      && name in s.world.table
      && s.world.started == w2.started
  {
  }
}

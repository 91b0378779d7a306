/** `MCPConnectionManager` as a state machine. Each region the source runs under
    `async with self._lock`, and each stretch of a lifecycle task between two
    suspension points, is one atomic step from one `World` to the next. */
module ConnectionManager {
  import opened Base
  import opened ServerConnection

  type ConnId = nat
  type GroupId = nat

  /** The server registry: configurations and registry-level init hooks by name. */
  datatype Registry = Registry(configs: map<string, ServerConfig>, initHooks: map<string, string>)

  /** The application context's `_connection_task_group` together with
      `_connection_task_group_context` (the name of the task that created it);
      the two attributes are set and deleted together. */
  datatype GroupSlot = NoGroup | HasGroup(group: GroupId, owner: string)

  /** One `start_soon(_server_lifecycle_task, conn)` call. */
  datatype TaskRecord = TaskRecord(conn: ConnId, server: string)

  /** The manager, its application context and every `ServerConnection` object
      ever built. `table` is `running_servers`; `tg` is the manager's `_tg`;
      `started` and the two counters are bookkeeping of the model. */
  datatype World = World(
    registry: Registry,
    slot: GroupSlot,
    tg: Option<GroupId>,
    openGroups: set<GroupId>,
    table: map<string, ConnId>,
    conns: map<ConnId, Conn>,
    started: seq<TaskRecord>,
    nextConn: ConnId,
    nextGroup: GroupId)

  /** A step that also returns a connection or raises. */
  datatype Step = Step(world: World, out: Result<ConnId, ManagerError>)

  /** What a `get_server` caller sees once it is waiting on a launched connection. */
  datatype Wait = StillWaiting | Returned(conn: ConnId) | Raises(error: ManagerError)

  /** A freshly constructed manager that has not been entered. */
  function Initial(registry: Registry): (w: World)
    ensures w.table == map[] && w.conns == map[] && w.started == []
    ensures w.slot == NoGroup && w.tg.None? && w.openGroups == {}
    ensures w.registry == registry
  {
    World(registry, NoGroup, None, {}, map[], map[], [], 0, 0)
  }

  /** A lifecycle task has been started for connection `id`. */
  predicate Started(w: World, id: ConnId) {
    exists i :: 0 <= i < |w.started| && w.started[i].conn == id
  }

  /** The number of lifecycle tasks started for connections named `name`. */
  function CountServer(tasks: seq<TaskRecord>, name: string): nat
    decreases |tasks|
  {
    if |tasks| == 0 then 0
    else CountServer(tasks[..|tasks| - 1], name) + (if tasks[|tasks| - 1].server == name then 1 else 0)
  }

  function Launches(w: World, name: string): nat {
    CountServer(w.started, name)
  }

  /** The invariant every step keeps. */
  ghost predicate Valid(w: World) {
    && (forall n :: n in w.table ==> w.table[n] in w.conns && w.conns[w.table[n]].name == n)
    && (forall id :: id in w.conns ==> id < w.nextConn && ConnOk(w.conns[id]))
    && (forall i :: 0 <= i < |w.started| ==>
          w.started[i].conn in w.conns && w.conns[w.started[i].conn].name == w.started[i].server)
    && (forall i, j :: 0 <= i < j < |w.started| ==> w.started[i].conn != w.started[j].conn)
    && (forall id :: id in w.conns && !w.conns[id].phase.Scheduled? ==> Started(w, id))
    && (forall g :: g in w.openGroups ==> g < w.nextGroup)
    && (w.slot.HasGroup? ==> w.slot.group < w.nextGroup)
    && (w.tg.Some? ==> w.tg.value < w.nextGroup)
  }

  /** `init_hook or self.server_registry.init_hooks.get(server_name)`. */
  function ResolveHook(explicit: Option<string>, registered: map<string, string>, name: string): (h: Option<string>)
    ensures explicit.Some? ==> h == explicit
    ensures explicit.None? ==> (h.Some? <==> name in registered)
    ensures explicit.None? && name in registered ==> h == Some(registered[name])
  {
    if explicit.Some? then explicit
    else if name in registered then Some(registered[name])
    else None
  }

  /** `__aenter__` run by the task named `task`: create the shared task group and
      record `task` as its owner only when the context has none; either way the
      manager's `_tg` becomes the context's group. */
  function Enter(w: World, task: string): (r: World)
    ensures w.slot.NoGroup? ==>
      && r.slot == HasGroup(w.nextGroup, task)
      && r.openGroups == w.openGroups + {w.nextGroup}
      && r.nextGroup == w.nextGroup + 1
    ensures w.slot.HasGroup? ==> r.slot == w.slot && r.openGroups == w.openGroups && r.nextGroup == w.nextGroup
    ensures r.slot.HasGroup? && r.tg == Some(r.slot.group)
    ensures r.table == w.table && r.conns == w.conns && r.started == w.started
    ensures r.registry == w.registry && r.nextConn == w.nextConn
  {
    match w.slot
    case NoGroup =>
      var g := w.nextGroup;
      w.(slot := HasGroup(g, task), tg := Some(g), openGroups := w.openGroups + {g}, nextGroup := g + 1)
    case HasGroup(g, _) =>
      w.(tg := Some(g))
  }

  /** `disconnect_all`: under the lock, request shutdown of every tracked
      connection, then empty the table. */
  function DisconnectAll(w: World): (r: World)
    ensures r.table == map[]
    ensures r.conns.Keys == w.conns.Keys
    ensures forall n :: n in w.table && w.table[n] in w.conns ==> r.conns[w.table[n]].shutdown
    ensures forall id :: id in w.conns && id !in w.table.Values ==> r.conns[id] == w.conns[id]
    ensures forall id :: id in w.conns ==> r.conns[id].(shutdown := w.conns[id].shutdown) == w.conns[id]
    ensures w.table == map[] ==> r == w
    ensures r.(table := w.table, conns := w.conns) == w
  {
    if w.table == map[] then w
    else
      var conns := map id | id in w.conns ::
        if id in w.table.Values then RequestShutdown(w.conns[id]) else w.conns[id];
      w.(table := map[], conns := conns)
  }

  /** `__aexit__` run by the task named `task`: always `disconnect_all`; then,
      only when `task` is the recorded owner, exit the shared task group and
      clear the context. The group's exit may raise (`groupExitRaises`, for
      example when a lifecycle task failed); the broad `except` then logs it,
      which also skips clearing the context. */
  function Exit(w: World, task: string, groupExitRaises: bool): (r: World)
    ensures r.table == map[] && r.conns.Keys == w.conns.Keys
    ensures forall n :: n in w.table && w.table[n] in w.conns ==> r.conns[w.table[n]].shutdown
    ensures w.slot.HasGroup? && w.slot.owner == task ==>
      && r.openGroups == w.openGroups - {w.slot.group}
      && r.slot == (if groupExitRaises then w.slot else NoGroup)
    ensures !(w.slot.HasGroup? && w.slot.owner == task) ==> r.slot == w.slot && r.openGroups == w.openGroups
    ensures r.tg == w.tg && r.started == w.started
    ensures r.conns == DisconnectAll(w).conns
    ensures r.registry == w.registry && r.nextConn == w.nextConn && r.nextGroup == w.nextGroup
  {
    var w1 := DisconnectAll(w);
    match w1.slot
    case HasGroup(g, owner) =>
      if owner == task then
        var w2 := w1.(openGroups := w1.openGroups - {g});
        if groupExitRaises then w2 else w2.(slot := NoGroup)
      else w1
    case NoGroup => w1
  }

  /** `launch_server(name, ..., init_hook=hook)`. Raises before touching anything
      when the manager was never entered or the name is not registered. The
      `ServerConnection` is built before the lock is taken, so a fresh object is
      allocated even when the name turns out to be running already; it is then
      discarded. A new name is inserted and its lifecycle task started, unless
      `_tg` has already exited, in which case `start_soon` raises after the insert. */
  function Launch(w: World, name: string, hook: Option<string>): (s: Step)
    ensures w.tg.None? ==> s == Step(w, Err(NotEntered))
    ensures w.tg.Some? && name !in w.registry.configs ==> s == Step(w, Err(ConfigNotFound(name)))
    ensures w.tg.Some? && name in w.registry.configs && name in w.table ==>
      && s.out == Ok(w.table[name])
      && s.world == w.(nextConn := w.nextConn + 1)
    ensures w.tg.Some? && name in w.registry.configs && name !in w.table ==>
      && s.world.table == w.table[name := w.nextConn]
      && (Valid(w) ==> w.nextConn !in w.conns)
      && s.world.conns == w.conns[w.nextConn := NewConn(name, w.registry.configs[name], ResolveHook(hook, w.registry.initHooks, name))]
      && s.world.nextConn == w.nextConn + 1
      && (w.tg.value in w.openGroups ==>
            s.out == Ok(w.nextConn) && s.world.started == w.started + [TaskRecord(w.nextConn, name)])
      && (w.tg.value !in w.openGroups ==> s.out == Err(TaskGroupClosed) && s.world.started == w.started)
    ensures s.world.registry == w.registry && s.world.slot == w.slot && s.world.tg == w.tg
    ensures s.world.openGroups == w.openGroups && s.world.nextGroup == w.nextGroup
    ensures Valid(w) ==> Valid(s.world)
  {
    if w.tg.None? then Step(w, Err(NotEntered))
    else if name !in w.registry.configs then Step(w, Err(ConfigNotFound(name)))
    else
      var id := w.nextConn;
      var conn := NewConn(name, w.registry.configs[name], ResolveHook(hook, w.registry.initHooks, name));
      var w1 := w.(nextConn := id + 1);
      if name in w.table then Step(w1, Ok(w.table[name]))
      else
        var w2 := w1.(table := w.table[name := id], conns := w.conns[id := conn]);
        if w.tg.value in w.openGroups then
          var w3 := w2.(started := w.started + [TaskRecord(id, name)]);
          assert Valid(w) ==> Valid(w3) by {
            if Valid(w) {
              forall x | x in w3.conns && !w3.conns[x].phase.Scheduled?
                ensures Started(w3, x)
              {
                var i :| 0 <= i < |w.started| && w.started[i].conn == x;
                assert w3.started[i] == w.started[i];
              }
            }
          }
          Step(w3, Ok(id))
        else
          assert Valid(w) ==> Valid(w2) by {
            if Valid(w) {
              forall x | x in w2.conns && !w2.conns[x].phase.Scheduled?
                ensures Started(w2, x)
              {
                var i :| 0 <= i < |w.started| && w.started[i].conn == x;
                assert w2.started[i] == w.started[i];
              }
            }
          }
          Step(w2, Err(TaskGroupClosed))
  }

  /** The fast path of `get_server`: under the lock, the running connection for
      `name` if there is one. It does not look at the connection's events, so it
      may hand back a connection that is still initializing or that failed. */
  function FastPath(w: World, name: string): (r: Option<ConnId>)
    ensures r.Some? <==> name in w.table
    ensures r.Some? ==> r.value == w.table[name]
  {
    if name in w.table then Some(w.table[name]) else None
  }

  /** The rest of `get_server` after `launch_server` returned connection `id`:
      wait for the initialized event, then raise only if no session was stored,
      exactly as the source checks it. */
  function FinishGetServer(w: World, id: ConnId): (r: Wait)
    requires id in w.conns
    ensures r == StillWaiting <==> !w.conns[id].initialized
    ensures r.Raises? <==> w.conns[id].initialized && w.conns[id].session.None?
    ensures r.Raises? ==> r.error == InitializationFailed(w.conns[id].name)
    ensures r.Returned? ==> r.conn == id && w.conns[id].session.Some?
  {
    var c := w.conns[id];
    if !c.initialized then StillWaiting
    else if c.session.None? then Raises(InitializationFailed(c.name))
    else Returned(id)
  }

  /** The same wait with the check its comment describes (a crashed lifecycle
      task must make the caller raise): raise unless the handshake and the init
      hook both returned. */
  function FinishGetServerChecked(w: World, id: ConnId): (r: Wait)
    requires id in w.conns
    ensures r == StillWaiting <==> !w.conns[id].initialized
    ensures r.Raises? <==> w.conns[id].initialized && !InitCompleted(w.conns[id])
    ensures r.Raises? ==> r.error == InitializationFailed(w.conns[id].name)
    ensures r.Returned? ==> r.conn == id && InitCompleted(w.conns[id])
  {
    var c := w.conns[id];
    if !c.initialized then StillWaiting
    else if !InitCompleted(c) then Raises(InitializationFailed(c.name))
    else Returned(id)
  }

  /** `disconnect_server(name)`: pop the entry under the lock, then request
      shutdown of the popped connection. Absent names change nothing. */
  function Disconnect(w: World, name: string): (r: World)
    ensures r.table == w.table - {name}
    ensures name !in w.table ==> r == w
    ensures name in w.table && w.table[name] in w.conns ==>
      r.conns == w.conns[w.table[name] := RequestShutdown(w.conns[w.table[name]])]
    ensures r.(table := w.table, conns := w.conns) == w
    ensures Valid(w) ==> Valid(r)
  {
    if name !in w.table then w
    else
      var id := w.table[name];
      var w1 := w.(table := w.table - {name});
      if id in w.conns then
        var r := w1.(conns := w.conns[id := RequestShutdown(w.conns[id])]);
        assert Valid(w) ==> Valid(r) by {
          if Valid(w) {
            forall x | x in r.conns && !r.conns[x].phase.Scheduled?
              ensures Started(r, x)
            {
              assert Started(w, x);
            }
          }
        }
        r
      else w1
  }

  // ----- lifecycle task steps -------------------------------------------

  /** A lifecycle task that can run: started, and its connection exists. */
  predicate Runs(w: World, id: ConnId) {
    id in w.conns && Started(w, id)
  }

  function UpdateConn(w: World, id: ConnId, c: Conn): (r: World)
    requires id in w.conns
    ensures r.conns == w.conns[id := c]
    ensures r.(conns := w.conns) == w
  {
    w.(conns := w.conns[id := c])
  }

  /** Call `transport_context_factory()` and enter it. An unsupported transport
      kind raises inside the task, so the failure arm runs. */
  function OpenTransport(w: World, id: ConnId, defaults: map<string, string>): (r: World)
    requires Runs(w, id) && w.conns[id].phase.Scheduled?
    ensures r.(conns := w.conns) == w && r.conns.Keys == w.conns.Keys
    ensures var t := TransportFor(w.conns[id].config, defaults);
      && (t.Ok? ==> r.conns[id] == w.conns[id].(phase := TransportOpen(t.value)))
      && (t.Err? ==> r.conns[id] == FailureArm(w.conns[id], t.error))
    ensures forall x :: x in w.conns && x != id ==> r.conns[x] == w.conns[x]
  {
    var c := w.conns[id];
    match TransportFor(c.config, defaults)
    case Ok(params) => UpdateConn(w, id, c.(phase := TransportOpen(params)))
    case Err(e) => UpdateConn(w, id, FailureArm(c, e))
  }

  /** `server_conn.create_session(read_stream, write_stream)` followed by
      entering the session. */
  function MakeSession(w: World, id: ConnId, factory: SessionFactory): (r: World)
    requires Runs(w, id) && w.conns[id].phase.TransportOpen?
    ensures r.(conns := w.conns) == w && r.conns.Keys == w.conns.Keys
    ensures r.conns[id] == CreateSession(w.conns[id], factory)
    ensures forall x :: x in w.conns && x != id ==> r.conns[x] == w.conns[x]
  {
    UpdateConn(w, id, CreateSession(w.conns[id], factory))
  }

  /** `await server_conn.initialize_session()` with the given outcomes of the
      handshake and of the init hook. */
  function Initialize(w: World, id: ConnId, handshakeOk: bool, hookOk: bool): (r: World)
    requires Runs(w, id) && w.conns[id].phase.SessionOpen?
    ensures r.(conns := w.conns) == w && r.conns.Keys == w.conns.Keys
    ensures r.conns[id] == InitializeSession(w.conns[id], handshakeOk, hookOk)
    ensures forall x :: x in w.conns && x != id ==> r.conns[x] == w.conns[x]
  {
    UpdateConn(w, id, InitializeSession(w.conns[id], handshakeOk, hookOk))
  }

  /** A collaborator raises outside `initialize_session`: the transport cannot
      be opened, the session factory raises, entering the session raises, or,
      in the steady state, the session or the transport fails while the task
      waits for its shutdown request. The failure arm runs. */
  function Crash(w: World, id: ConnId, reason: string): (r: World)
    requires Runs(w, id)
    requires || w.conns[id].phase.Scheduled? || w.conns[id].phase.TransportOpen?
             || w.conns[id].phase.SessionOpen? || w.conns[id].phase.Serving?
    ensures r.(conns := w.conns) == w && r.conns.Keys == w.conns.Keys
    ensures r.conns[id] == FailureArm(w.conns[id], Raised(reason))
    ensures forall x :: x in w.conns && x != id ==> r.conns[x] == w.conns[x]
  {
    UpdateConn(w, id, FailureArm(w.conns[id], Raised(reason)))
  }

  /** `wait_for_shutdown_request` returns and the task leaves its `async with`
      blocks; closing may raise, which again goes through the failure arm. */
  function Unwind(w: World, id: ConnId, closeOk: bool): (r: World)
    requires Runs(w, id) && w.conns[id].phase.Serving? && w.conns[id].shutdown
    ensures r.(conns := w.conns) == w && r.conns.Keys == w.conns.Keys
    ensures closeOk ==> r.conns[id] == w.conns[id].(phase := Closed)
    ensures !closeOk ==> r.conns[id] == FailureArm(w.conns[id], ShutdownFailed)
    ensures forall x :: x in w.conns && x != id ==> r.conns[x] == w.conns[x]
  {
    var c := w.conns[id];
    if closeOk then UpdateConn(w, id, c.(phase := Closed))
    else UpdateConn(w, id, FailureArm(c, ShutdownFailed))
  }

  // ----- the whole machine ------------------------------------------------

  /** Every atomic step the manager and its lifecycle tasks can take. */
  datatype Action =
    | DoEnter(task: string)
    | DoExit(task: string, groupExitRaises: bool)
    | DoLaunch(name: string, hook: Option<string>)
    | DoDisconnect(name: string)
    | DoDisconnectAll
    | DoOpenTransport(id: ConnId, defaults: map<string, string>)
    | DoMakeSession(id: ConnId, factory: SessionFactory)
    | DoInitialize(id: ConnId, handshakeOk: bool, hookOk: bool)
    | DoCrash(id: ConnId, reason: string)
    | DoUnwind(id: ConnId, closeOk: bool)

  /** The guard of each step: a lifecycle step needs its task at the matching
      point; `Unwind` also needs the shutdown request (the `Event.wait` guard). */
  predicate Enabled(w: World, a: Action) {
    match a
    case DoOpenTransport(id, _) => Runs(w, id) && w.conns[id].phase.Scheduled?
    case DoMakeSession(id, _) => Runs(w, id) && w.conns[id].phase.TransportOpen?
    case DoInitialize(id, _, _) => Runs(w, id) && w.conns[id].phase.SessionOpen?
    case DoCrash(id, _) =>
      && Runs(w, id)
      && (|| w.conns[id].phase.Scheduled? || w.conns[id].phase.TransportOpen?
          || w.conns[id].phase.SessionOpen? || w.conns[id].phase.Serving?)
    case DoUnwind(id, _) => Runs(w, id) && w.conns[id].phase.Serving? && w.conns[id].shutdown
    case _ => true
  }

  function Next(w: World, a: Action): World
    requires Enabled(w, a)
  {
    match a
    case DoEnter(task) => Enter(w, task)
    case DoExit(task, raises) => Exit(w, task, raises)
    case DoLaunch(name, hook) => Launch(w, name, hook).world
    case DoDisconnect(name) => Disconnect(w, name)
    case DoDisconnectAll => DisconnectAll(w)
    case DoOpenTransport(id, defaults) => OpenTransport(w, id, defaults)
    case DoMakeSession(id, factory) => MakeSession(w, id, factory)
    case DoInitialize(id, h, k) => Initialize(w, id, h, k)
    case DoCrash(id, reason) => Crash(w, id, reason)
    case DoUnwind(id, ok) => Unwind(w, id, ok)
  }

  /** Run a schedule of actions; an action whose guard does not hold is one the
      scheduler cannot pick yet, and is skipped. */
  function Run(w: World, schedule: seq<Action>): World
    decreases |schedule|
  {
    if |schedule| == 0 then w
    else if Enabled(w, schedule[0]) then Run(Next(w, schedule[0]), schedule[1..])
    else Run(w, schedule[1..])
  }
}

/** One MCP server connection (`ServerConnection`) and the pure helpers that
    `launch_server` and `create_session` use: transport dispatch with stdio
    environment merging, and the read-timeout derivation.

    The transports, the `ClientSession` protocol and the init hook are outside
    the model: their outcomes arrive as parameters of the transitions below. */
module ServerConnection {
  import opened Base

  /** The registry entry for one server (`MCPServerSettings`), restricted to
      the fields the connection manager reads. */
  datatype ServerConfig = ServerConfig(
    transport: string,
    command: Option<string>,
    args: seq<string>,
    env: Option<map<string, string>>,
    url: Option<string>,
    readTimeoutSeconds: Option<int>)

  /** What `transport_context_factory` hands to the concrete transport. */
  datatype TransportParams =
    | StdioParams(command: Option<string>, args: seq<string>, env: map<string, string>)
    | SseParams(url: Option<string>)

  /** Everything the manager or a lifecycle task can raise. */
  datatype ManagerError =
    | NotEntered                       // `launch_server` before `__aenter__`
    | ConfigNotFound(name: string)     // name missing from the registry
    | TaskGroupClosed                  // `start_soon` on a task group that has exited
    | UnsupportedTransport(kind: string)
    | Raised(reason: string)           // a collaborator raised at a suspension point
    | HandshakeFailed                  // `session.initialize()` raised
    | HookFailed                       // the init hook raised
    | ShutdownFailed                   // closing the session or transport raised
    | InitializationFailed(name: string)

  /** `{**defaults, **(config.env or {})}`: the default environment with the
      configured variables overriding it key by key. */
  function MergeEnv(defaults: map<string, string>, overrides: Option<map<string, string>>): (env: map<string, string>)
    ensures overrides.None? ==> env == defaults
    ensures overrides.Some? ==> env.Keys == defaults.Keys + overrides.value.Keys
    ensures overrides.Some? ==> forall k :: k in overrides.value ==> env[k] == overrides.value[k]
    ensures forall k :: k in defaults && (overrides.None? || k !in overrides.value) ==> k in env && env[k] == defaults[k]
  {
    defaults + overrides.GetOr(map[])
  }

  /** An absent environment and an empty one give the same stdio environment
      (`config.env or {}`). */
  lemma NoEnvIsEmptyEnv(defaults: map<string, string>)
    ensures MergeEnv(defaults, None) == MergeEnv(defaults, Some(map[]))
  {
  }

  /** `transport_context_factory`: dispatch on the configured transport kind. */
  function TransportFor(config: ServerConfig, defaults: map<string, string>): (r: Result<TransportParams, ManagerError>)
    ensures r.Ok? && r.value.StdioParams? <==> config.transport == "stdio"
    ensures r.Ok? && r.value.SseParams? <==> config.transport == "sse"
    ensures r.Err? <==> config.transport != "stdio" && config.transport != "sse"
    ensures r.Err? ==> r.error == UnsupportedTransport(config.transport)
    ensures r.Ok? && r.value.StdioParams? ==>
      && r.value.command == config.command
      && r.value.args == config.args
      && r.value.env == MergeEnv(defaults, config.env)
    ensures r.Ok? && r.value.SseParams? ==> r.value.url == config.url
  {
    if config.transport == "stdio" then
      Ok(StdioParams(config.command, config.args, MergeEnv(defaults, config.env)))
    else if config.transport == "sse" then
      Ok(SseParams(config.url))
    else
      Err(UnsupportedTransport(config.transport))
  }

  /** The `read_timeout` handed to the session factory: none when the configured
      number of seconds is falsy (absent or zero), otherwise that many seconds. */
  function ReadTimeout(seconds: Option<int>): (r: Option<int>)
    ensures r.None? <==> seconds.None? || seconds.value == 0
    ensures r.Some? ==> r.value == seconds.value
  {
    match seconds
    case None => None
    case Some(s) => if s == 0 then None else Some(s)
  }

  /** An opaque protocol session. `hasConfigSlot` says whether its class has a
      `server_config` attribute, which `create_session` then fills in. */
  datatype Session = Session(
    handle: nat,
    readTimeout: Option<int>,
    hasConfigSlot: bool,
    serverConfig: Option<ServerConfig>)

  /** `client_session_factory(read_stream, send_stream, read_timeout)`; the stream
      pair is represented by the transport parameters it was opened with. */
  type SessionFactory = (TransportParams, Option<int>) -> Session

  /** Where a connection's lifecycle task is. */
  datatype Phase =
    | Scheduled                               // task started, nothing opened yet
    | TransportOpen(params: TransportParams)  // inside `async with transport_context`
    | SessionOpen                             // session created and entered, handshake pending
    | Serving                                 // initialized, waiting for the shutdown request
    | Closed                                  // unwound cleanly after shutdown
    | Failed(error: ManagerError)             // the `except` arm ran and re-raised

  /** A `ServerConnection`. `initialized` and `shutdown` are its two one-shot
      events; `handshakeDone` and `hookDone` record that `session.initialize()`
      and the init hook have returned. */
  datatype Conn = Conn(
    name: string,
    config: ServerConfig,
    hook: Option<string>,
    session: Option<Session>,
    initialized: bool,
    shutdown: bool,
    phase: Phase,
    handshakeDone: bool,
    hookDone: bool)

  /** The initialization steps that have returned: the handshake, and the hook
      when there is one. */
  predicate InitCompleted(c: Conn) {
    c.handshakeDone && (c.hook.None? || c.hookDone)
  }

  /** The per-connection invariant that every transition keeps. */
  predicate ConnOk(c: Conn) {
    && (c.initialized <==> c.phase.Serving? || c.phase.Closed? || c.phase.Failed?)
    && (c.phase.Scheduled? || c.phase.TransportOpen? ==> c.session.None? && !c.handshakeDone)
    && (c.phase.SessionOpen? ==> c.session.Some? && !c.handshakeDone)
    && (c.phase.Serving? || c.phase.Closed? ==> c.session.Some? && InitCompleted(c))
    && (c.phase.Closed? ==> c.shutdown)
    && (c.hookDone ==> c.handshakeDone)
    && (c.handshakeDone ==> c.session.Some?)
  }

  /** A freshly constructed `ServerConnection`: no session, both events unset. */
  function NewConn(name: string, config: ServerConfig, hook: Option<string>): (c: Conn)
    ensures c.name == name && c.config == config && c.hook == hook
    ensures c.session.None? && !c.initialized && !c.shutdown
    ensures c.phase == Scheduled && ConnOk(c)
  {
    Conn(name, config, hook, None, false, false, Scheduled, false, false)
  }

  /** `request_shutdown`: sets the shutdown event and nothing else. */
  function RequestShutdown(c: Conn): (r: Conn)
    ensures r.shutdown
    ensures r.(shutdown := c.shutdown) == c
    ensures ConnOk(c) ==> ConnOk(r)
  {
    c.(shutdown := true)
  }

  /** Requesting shutdown twice is the same as requesting it once. */
  lemma RequestShutdownIdempotent(c: Conn)
    ensures RequestShutdown(RequestShutdown(c)) == RequestShutdown(c)
  {
  }

  /** The `except` arm of `_server_lifecycle_task`: set the initialized event
      so that waiters are released, then re-raise `err`. */
  function FailureArm(c: Conn, err: ManagerError): (r: Conn)
    ensures r.initialized && r.phase == Failed(err)
    ensures r.(initialized := c.initialized, phase := c.phase) == c
    ensures ConnOk(c) ==> ConnOk(r)
  {
    c.(initialized := true, phase := Failed(err))
  }

  /** `create_session`: build the session with the derived read timeout, give it
      the server config when it has a slot for one, and store it. */
  function CreateSession(c: Conn, factory: SessionFactory): (r: Conn)
    requires c.phase.TransportOpen?
    ensures r.phase == SessionOpen && r.session.Some?
    ensures var made := factory(c.phase.params, ReadTimeout(c.config.readTimeoutSeconds));
      && r.session.value.handle == made.handle
      && r.session.value.readTimeout == made.readTimeout
      && r.session.value.hasConfigSlot == made.hasConfigSlot
      && r.session.value.serverConfig == (if made.hasConfigSlot then Some(c.config) else made.serverConfig)
    ensures r.(session := c.session, phase := c.phase) == c
    ensures ConnOk(c) ==> ConnOk(r)
  {
    var made := factory(c.phase.params, ReadTimeout(c.config.readTimeoutSeconds));
    var session := if made.hasConfigSlot then made.(serverConfig := Some(c.config)) else made;
    c.(session := Some(session), phase := SessionOpen)
  }

  /** `initialize_session` resumed after `session.initialize()` returned
      (`handshakeOk`) or raised; the init hook, when present, then returns
      (`hookOk`) or raises. Only full success sets the initialized event from
      here; a raise goes through the failure arm, which sets it too. */
  function InitializeSession(c: Conn, handshakeOk: bool, hookOk: bool): (r: Conn)
    requires c.phase.SessionOpen?
    ensures r.initialized
    ensures r.phase == Serving <==> handshakeOk && (c.hook.None? || hookOk)
    ensures r.phase == Serving ==> InitCompleted(r)
    ensures !handshakeOk ==> r.phase == Failed(HandshakeFailed) && r.handshakeDone == c.handshakeDone && r.hookDone == c.hookDone
    ensures handshakeOk ==> r.handshakeDone
    ensures handshakeOk && c.hook.Some? && !hookOk ==> r.phase == Failed(HookFailed) && r.hookDone == c.hookDone
    ensures r.session == c.session && r.shutdown == c.shutdown
    ensures r.name == c.name && r.config == c.config && r.hook == c.hook
    ensures ConnOk(c) ==> ConnOk(r)
  {
    if !handshakeOk then FailureArm(c, HandshakeFailed)
    else
      var c1 := c.(handshakeDone := true);
      if c.hook.Some? && !hookOk then FailureArm(c1, HookFailed)
      else c1.(hookDone := c.hook.Some?, initialized := true, phase := Serving)
  }
}

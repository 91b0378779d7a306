# fast-agent core, modelled in Dafny

This project models three sequential cores of fast-agent and proves properties
about them.

1. **The MCP connection manager** (`MCPConnectionManager` and
   `ServerConnection`). The manager is a state machine over an immutable
   `World`, which holds:
   - the server registry;
   - the application context's shared task group and the name of the task that
     created it;
   - the manager's `_tg`;
   - the `running_servers` table;
   - every `ServerConnection` ever built, keyed by an identity;
   - the lifecycle tasks that were started.

   Each region the source runs under `async with self._lock` is one atomic
   step. So is each stretch of a server's lifecycle task between two
   suspension points: opening the transport, creating the session, the
   handshake and init hook, a crash, and unwinding after shutdown. Outcomes
   that come from code outside the model arrive as step parameters. These are
   whether the handshake, the hook or the close raised, the session factory,
   and the default environment. `Run` executes any schedule of steps, and the
   invariant `Valid` is proved to hold along every schedule.
2. **Log-event to progress-event conversion** (`convert_log_event`, the
   `ProgressAction` value set, and `ProgressEvent.__str__`). Python values are
   modelled explicitly: truthiness, `str()`, `dict.get`, `ljust`, and substring
   `in`.
3. **Agent proxies.** This covers the chain loop of `ChainProxy.send_prompt`
   in sequential and cumulative mode, the `__call__`/`send` dispatch, and
   `RouterProxy.generate_str`. Agents are arbitrary functions from the
   messages they are given to the message they answer.

Files:
- `base.dfy`: `Option` and `Result`.
- `text.dfy`: the Python string operations used.
- `connection.dfy`: `ServerConnection`, transport dispatch and the read timeout.
- `manager.dfy`: the manager's steps.
- `manager_properties.dfy`: properties that span several steps.
- `event_progress.dfy`: log-event conversion and formatting.
- `proxies.dfy`: the agent proxies.

## Model

| member | source | states |
|---|---|---|
| `ServerConnection.MergeEnv` | src/mcp_agent/mcp/mcp_connection_manager.py:247 | The stdio environment holds the keys of the defaults and of `config.env`. A configured variable overrides the default key by key. A missing `env` leaves the defaults as they are. |
| `ServerConnection.NoEnvIsEmptyEnv` | src/mcp_agent/mcp/mcp_connection_manager.py:247 | `config.env or {}`: an absent environment and an empty one give the same stdio environment. |
| `ServerConnection.TransportFor` | src/mcp_agent/mcp/mcp_connection_manager.py:242-254 | `"stdio"` gives stdio parameters with the configured command, args and merged environment. `"sse"` gives the configured URL. Any other kind, and only such a kind, raises "Unsupported transport" naming that kind. |
| `ServerConnection.ReadTimeout` | src/mcp_agent/mcp/mcp_connection_manager.py:120-124 | There is no read timeout exactly when the configured seconds are falsy (absent or 0). Otherwise it is that many seconds. |
| `ServerConnection.NewConn` | src/mcp_agent/mcp/mcp_connection_manager.py:65-75 | A new connection keeps its name, config and hook. It has no session, both events are unset, and it satisfies the connection invariant. |
| `ServerConnection.RequestShutdown` | src/mcp_agent/mcp/mcp_connection_manager.py:77-81 | Sets the shutdown event and changes nothing else. It keeps the connection invariant. |
| `ServerConnection.RequestShutdownIdempotent` | src/mcp_agent/mcp/mcp_connection_manager.py:77-81 | Requesting shutdown twice is the same as requesting it once. |
| `ServerConnection.FailureArm` | src/mcp_agent/mcp/mcp_connection_manager.py:154-161 | On any error the initialized event is set, which releases waiters, and the error is recorded as re-raised. Nothing else changes. |
| `ServerConnection.CreateSession` | src/mcp_agent/mcp/mcp_connection_manager.py:111-134 | The session is built from the transport's streams and the derived read timeout. It is given the server config exactly when it has a slot for one. It is stored on the connection. |
| `ServerConnection.InitializeSession` | src/mcp_agent/mcp/mcp_connection_manager.py:89-103 | The connection is serving exactly when the handshake returned and the init hook, if any, returned. The initialized event is set on success only after both. A raising handshake or hook goes to the failure arm with that error. The session, name, config and hook are unchanged. |
| `ConnectionManager.Initial` | src/mcp_agent/mcp/mcp_connection_manager.py:170-176 | A new manager holds the registry it was given, has an empty table and no task group, and no task has been started. |
| `ConnectionManager.ResolveHook` | src/mcp_agent/mcp/mcp_connection_manager.py:261 | `init_hook or init_hooks.get(name)`: an explicit hook wins. Otherwise the hook is the registered one, and there is none when the name has none registered. |
| `ConnectionManager.Enter` | src/mcp_agent/mcp/mcp_connection_manager.py:178-192 | A new task group, owned by the entering task, is created only when the context has none. Otherwise the slot is unchanged. Either way `_tg` becomes the context's group, and the table, connections, tasks, registry and allocation counter are untouched. |
| `ConnectionManager.DisconnectAll` | src/mcp_agent/mcp/mcp_connection_manager.py:325-334 | Every connection tracked in the table gets its shutdown request, and the table ends empty. Untracked connections and every other field are unchanged. On an empty table nothing changes. |
| `ConnectionManager.Exit` | src/mcp_agent/mcp/mcp_connection_manager.py:194-214 | Every exit disconnects everything, with the same effect on the connections as `disconnect_all`. Only the recorded owner closes the group and clears the slot. If the group's exit raises, the slot is left pointing at the closed group. A non-owner leaves slot and group as they were. The registry, `_tg` and the started tasks are unchanged. |
| `ConnectionManager.Launch` | src/mcp_agent/mcp/mcp_connection_manager.py:216-273 | Raises with nothing changed before `__aenter__` or for an unregistered name. A running name returns its existing connection and changes only the allocation counter. A new name inserts exactly that key with a fresh, all-unset connection and starts exactly one task, or raises after the insert if the group has exited. It keeps `Valid`. |
| `ConnectionManager.FastPath` | src/mcp_agent/mcp/mcp_connection_manager.py:284-288 | Returns a connection exactly when the name is in the table, and then returns that entry, whatever its state. |
| `ConnectionManager.FinishGetServer` | src/mcp_agent/mcp/mcp_connection_manager.py:297-305 | As written: the caller waits exactly while the initialized event is unset. It raises exactly when no session was stored, and otherwise returns the connection. |
| `ConnectionManager.FinishGetServerChecked` | src/mcp_agent/mcp/mcp_connection_manager.py:297-305 | Corrected: it raises exactly when the event is set but the handshake or the hook did not complete. A returned connection completed both. |
| `ConnectionManager.Disconnect` | src/mcp_agent/mcp/mcp_connection_manager.py:307-323 | Removes only the given key and requests shutdown of the removed connection. An absent name changes nothing and does not raise. It keeps `Valid`. |
| `ConnectionManager.OpenTransport` | src/mcp_agent/mcp/mcp_connection_manager.py:143-146 | The task enters the transport built by the dispatch. An unsupported kind raises inside the task and runs the failure arm. Only this connection changes. |
| `ConnectionManager.MakeSession` | src/mcp_agent/mcp/mcp_connection_manager.py:147-149 | The task's connection gets its created session. Only this connection changes. |
| `ConnectionManager.Initialize` | src/mcp_agent/mcp/mcp_connection_manager.py:150 | The task's connection goes through the initialization outcome. Only this connection changes. |
| `ConnectionManager.Crash` | src/mcp_agent/mcp/mcp_connection_manager.py:143-161 | A raise outside `initialize_session` runs the failure arm on that connection only. This covers a raise before the steady state and a session or transport failure while the task waits for its shutdown request. |
| `ConnectionManager.Unwind` | src/mcp_agent/mcp/mcp_connection_manager.py:152-161 | Once shutdown is requested the task leaves its context managers. A clean close ends in `Closed`. A raising close runs the failure arm. Only this connection changes. |
| `ManagerProperties.InitialValid` | src/mcp_agent/mcp/mcp_connection_manager.py:170-176 | A new manager satisfies the table invariant. |
| `ManagerProperties.NextPreservesValid` | src/mcp_agent/mcp/mcp_connection_manager.py:137-334 | Every enabled step keeps the invariant. Table entries point to connections of that name. Every task points to a distinct existing connection of its name. Every connection past `Scheduled` has a started task, and each satisfies the per-connection invariant. |
| `ManagerProperties.DisconnectAllPreservesValid` | src/mcp_agent/mcp/mcp_connection_manager.py:325-334 | `disconnect_all` keeps the invariant. |
| `ManagerProperties.StepOnOneConnPreservesValid` | src/mcp_agent/mcp/mcp_connection_manager.py:137-161 | A lifecycle step that rewrites only its own connection, keeping its name and the per-connection invariant, keeps the invariant. |
| `ManagerProperties.RunPreservesValid` | src/mcp_agent/mcp/mcp_connection_manager.py:137-334 | The invariant holds along every schedule of steps. |
| `ManagerProperties.CountServerSnoc` | src/mcp_agent/mcp/mcp_connection_manager.py:270 | Starting one more task adds one to the launch count of its server's name only. |
| `ManagerProperties.LaunchStartsOneTask` | src/mcp_agent/mcp/mcp_connection_manager.py:264-270 | Launching a name that is not running returns the new connection and starts exactly one task for that name and none for any other. |
| `ManagerProperties.LaunchIdempotent` | src/mcp_agent/mcp/mcp_connection_manager.py:264-267 | A second launch of a successfully launched name returns the same connection. It changes neither the table, the connections nor the started tasks. |
| `ManagerProperties.LaunchEachWhileRunning` | src/mcp_agent/mcp/mcp_connection_manager.py:264-267 | Any number of launches of a running name leave the table, the connections and the tasks unchanged. |
| `ManagerProperties.ManyLaunchesStartOneTask` | src/mcp_agent/mcp/mcp_connection_manager.py:256-270 | However many callers launch a name that is not running, exactly one task is started for it, and the table holds the first caller's connection. |
| `ManagerProperties.DisconnectThenLaunchIsFresh` | src/mcp_agent/mcp/mcp_connection_manager.py:313-323 | After `disconnect_server(n)`, the next launch of `n` builds a new connection object, and the old one keeps its shutdown request. |
| `ManagerProperties.DisconnectAllTwice` | src/mcp_agent/mcp/mcp_connection_manager.py:325-334 | `disconnect_all` is idempotent. |
| `ManagerProperties.WaitingIffInFlight` | src/mcp_agent/mcp/mcp_connection_manager.py:297-298 | A `get_server` caller waits exactly while the lifecycle task has neither reached its steady state nor failed. |
| `ManagerProperties.FailureReleasesWaiters` | src/mcp_agent/mcp/mcp_connection_manager.py:154-161 | A failure before the steady state releases the waiter. With the intended check, the waiter then raises. |
| `ManagerProperties.SteadyStateCrashFails` | src/mcp_agent/mcp/mcp_connection_manager.py:149-161 | A failure while the task waits at the shutdown request runs the failure arm without any shutdown request. The connection stays in the table and the invariant holds. |
| `ManagerProperties.InitializedOnlyAfterInitOrFailure` | src/mcp_agent/mcp/mcp_connection_manager.py:89-103 | The initialized event is set only after the handshake and the hook completed, or by the failure arm. |
| `ManagerProperties.SuccessfulInitReturnsConnection` | src/mcp_agent/mcp/mcp_connection_manager.py:89-103 | A successful initialization serves with the created session, and the waiter gets the connection. |
| `ManagerProperties.FailedHandshakeIsReturned` | src/mcp_agent/mcp/mcp_connection_manager.py:297-305 | As written, after a raising handshake the waiter is handed the failed connection. The corrected wait raises. |
| `ManagerProperties.FailedHookIsReturned` | src/mcp_agent/mcp/mcp_connection_manager.py:297-305 | As written, after a raising init hook the waiter is handed the failed connection. The corrected wait raises. |
| `ManagerProperties.FailedHandshakeExample` | src/mcp_agent/mcp/mcp_connection_manager.py:291-305 | A concrete schedule that ends with `get_server` returning a connection whose handshake raised: enter, launch "alpha", open, create the session, handshake fails. |
| `ManagerProperties.FastPathIgnoresReadiness` | src/mcp_agent/mcp/mcp_connection_manager.py:284-288 | Right after a launch, the fast path returns the connection although it is not initialized. |
| `ManagerProperties.NestedEnterKeepsOwner` | src/mcp_agent/mcp/mcp_connection_manager.py:183-191 | A nested enter from any task keeps the group and its recorded owner. |
| `ManagerProperties.NonOwnerExitKeepsGroup` | src/mcp_agent/mcp/mcp_connection_manager.py:198-212 | A non-owner's exit empties the table but leaves the owner's group open and recorded. |
| `ManagerProperties.BalancedNestingClearsGroup` | src/mcp_agent/mcp/mcp_connection_manager.py:198-212 | With balanced nesting, the inner exit keeps the group, and the owner's exit closes it and clears the slot. |
| `ManagerProperties.RaisingExitStrandsLaunch` | src/mcp_agent/mcp/mcp_connection_manager.py:208-214 | When the owner's group exit raises, the slot keeps the closed group. The next enter adopts it, and a launch then leaves a table entry with no task behind it. |
| `EventProgress.ParseAction` | src/mcp_agent/event_progress.py:10-23 | `ProgressAction(s)` finds a member exactly when `s` is one of the eleven values, and that member has value `s`. |
| `EventProgress.ParseActionValue` | src/mcp_agent/event_progress.py:10-23 | Every member is found again from its value, so the eleven values are distinct. |
| `EventProgress.ConvertLogEvent` | src/mcp_agent/event_progress.py:45-93 | Returns `None` exactly when the data is empty, `data["data"]` is not a dict, or the action is falsy. Raises exactly when a truthy action names no member. `target` and `agent_name` both equal `agent_name`. Details follow the fatal-error rule first, then the aggregator rule (with tool or server only), then the LLM rule (with model and optional turn), else `""`. |
| `EventProgress.FatalDetailsIgnoreNamespace` | src/mcp_agent/event_progress.py:66-67 | A fatal error's conversion does not depend on the namespace. |
| `EventProgress.UnknownActionRaises` | src/mcp_agent/event_progress.py:56-58 | A truthy action outside the value set makes the conversion raise instead of returning `None`. |
| `EventProgress.Format` | src/mcp_agent/event_progress.py:35-42 | The line is the optional `"[agent] "` prefix, then the action padded to max(11, length), `". "` and the target. `" - details"` follows only when details are truthy. The line starts with `[` exactly when the agent name is truthy. Its length is the sum of these parts. |
| `EventProgress.ActionValueShape` | src/mcp_agent/event_progress.py:13-23 | No action value contains a dot or ends with a space. |
| `EventProgress.FormatShowsAction` | src/mcp_agent/event_progress.py:37 | Once the event's own agent prefix is removed, the text before the first `.`, stripped of padding, is the action's value. |
| `Text.PadRight` | src/mcp_agent/event_progress.py:37 | `ljust`: the text, then spaces up to the width, never truncated. |
| `Text.TrimRightPadRight` | src/mcp_agent/event_progress.py:37 | Stripping `ljust` padding from a text that does not end in a space gives the text back. |
| `Text.ContainsIffOccurs` | src/mcp_agent/event_progress.py:68 | The substring scan used for `"mcp_aggregator" in namespace` succeeds exactly when the substring occurs at some index. |
| `Text.IntToString` | src/mcp_agent/event_progress.py:83 | `str(i)` is non-empty, starts with `-` exactly for negatives, has no leading zero, and reads back as the number. |
| `Text.ParseNatToString` | src/mcp_agent/event_progress.py:83 | Printing a natural number and reading it back gives the number. |
| `Proxies.Send` | src/mcp_agent/core/proxies.py:46-61 | No message opens the interactive prompt. A multipart message is sent unchanged. A string is sent as a user message with that text. |
| `Proxies.Call` | src/mcp_agent/core/proxies.py:39-44 | `__call__` dispatches exactly as `send` does. |
| `Proxies.RouterGenerateStr` | src/mcp_agent/core/proxies.py:213-232 | No results give the no-route message and only they do. An agent top result delegates the message to that agent. A server name gives the not-supported message. Anything else gives `Routed to: result (confidence): reasoning`. |
| `Proxies.RouterUsesTopResultOnly` | src/mcp_agent/core/proxies.py:223 | Only the top result decides the reply. |
| `Proxies.AnsweredStep` | src/mcp_agent/core/proxies.py:276-286 | One more agent looked up by name and answering its input keeps the record of answers. |
| `Proxies.CumulativeStep` | src/mcp_agent/core/proxies.py:278-280 | In cumulative mode the next agent is given the prompt and all attributed answers so far, in order. |
| `Proxies.SequentialStep` | src/mcp_agent/core/proxies.py:281-283 | In sequential mode the next agent is given only the previous agent's bare answer, or the prompt for the first agent. |
| `Proxies.ChainOfStep` | src/mcp_agent/core/proxies.py:293-299 | The chain stays "prompt, then one forwarded answer per earlier agent" when an answer is added or forwarded. |
| `Proxies.ChainLoop` | src/mcp_agent/core/proxies.py:269-299 | Agent i receives the chain (cumulative) or a one-element list (sequential) as described above. The loop stops at the first name with no agent. The chain ends with length len(sequence), or 1 when the sequence is empty. |
| `Proxies.ChainSendPrompt` | src/mcp_agent/core/proxies.py:258-305 | Raises a lookup error exactly when some name has no agent, naming the first such name. Cumulative mode answers with the `"\n\n"`-join of the attributed answers in order. Sequential mode answers with the prompt text, `"\n"` and the last agent's text, and fails when the sequence is empty. |

## Left out

- Concurrency: anyio task groups, `Lock`, `Event.wait` and scheduling. Each locked region and each stretch between suspension points is one atomic step. Waiting is a guard (`Enabled`) or the `StillWaiting` outcome. Cancellation and the aggregation of task errors into an exception group are represented only by the `groupExitRaises` parameter of `Exit`. When one lifecycle task raises, anyio cancels its sibling tasks; a cancelled task exits with `CancelledError`, which the `except Exception` arm does not catch, so its initialized event is never set. `ManagerProperties.WaitingIffInFlight` and `ManagerProperties.FailureReleasesWaiters` therefore hold only for tasks that are not cancelled.
- `ConnectionManager.Exit`: it does not model the task group waiting for its lifecycle tasks to finish when it exits, because that is scheduling. The steps after the shutdown request stay available to `Run`.
- The concrete transports (`stdio_client_with_rich_stderr`, `sse_client`), `get_default_environment` and the MCP `ClientSession` protocol. The default environment and the session factory are parameters. The handshake, the hook and closing succeed or raise according to a boolean parameter.
- `ServerConnection.CreateSession`: the stream pair is represented by the transport parameters it was opened with, and the session factory is not stored on the connection but supplied at the step that uses it.
- The init hook's arguments (`session`, `server_config.auth`). A hook is represented by its name only.
- `timedelta`: a read timeout is carried as its number of seconds.
- Logging, `print` and the `config.model_dump()` debug payload.
- `BaseAgentProxy.prompt()` and the AgentApp lookup behind it. The dispatch stops at "open the interactive prompt".
- The LLM and agent calls (`generate_x`, `_llm.generate_str`, `send_prompt` of the other proxy classes). An agent is a function from messages to a message. A router's agent delegation is reported as the agent's name and the message it is given.
- `Proxies.ChainLoop`: in cumulative mode the source hands each agent the chain list itself and appends to it afterwards; the model passes a snapshot, so agents are assumed not to keep or mutate their input list.
- `Proxies.ChainSendPrompt`: multipart message content is collapsed to its `all_text()`, so content items other than text are not modelled.
- `EventProgress.ConvertLogEvent`: `str()` of values other than `None`, integers and strings, such as floats or nested containers, is carried as an uninterpreted string with its truth value, so it is not computed.
- `event_data.get("target", "unknown")` in the last namespace branch has no effect on the result, so it is not modelled.

## Findings

| source | as written | input that shows it | evidently intended | confidence | as-written member | corrected member |
|---|---|---|---|---|---|---|
| src/mcp_agent/mcp/mcp_connection_manager.py:300-305 | After waiting, `get_server` raises only when `session` is `None`. But `create_session` (line 132) stores the session before `initialize()` runs (line 95). So a lifecycle task whose handshake or init hook raised still hands its dead connection to the caller. | Registry with one stdio server "alpha". The task enters the manager, launches "alpha", opens the transport and creates the session, and then `session.initialize()` raises. The failure arm sets the initialized event and `get_server` returns the connection. | Raise unless the handshake and the init hook both completed; the comment at line 300 says the check is meant to detect a crashed lifecycle task. | medium; not executed | `ConnectionManager.FinishGetServer` (shown by `ManagerProperties.FailedHandshakeIsReturned`, `ManagerProperties.FailedHookIsReturned`, `ManagerProperties.FailedHandshakeExample`) | `ConnectionManager.FinishGetServerChecked` (with `ManagerProperties.FailureReleasesWaiters`, `ManagerProperties.SuccessfulInitReturnsConnection`) |

# Lite Agent control plane and checkpoint saving, in Dafny

This project models the core of Lite Agent, a small Python daemon.

The agent side has three parts:

- a command-line front end (`cli.py`);
- a client and server speaking JSON over a Unix domain socket (`ipc.py`);
- a daemon lifecycle (`agent_core.py`): double-fork detachment, a PID file, SIGTERM and SIGHUP handlers, the accept loop and cleanup on exit.

The machine-learning side saves checkpoints (`ml_utils.py`, `model_state_saver.py`). Five `dump_state_*` variants each write a loop-state pickle. After it, they are meant to write one `config.json` and one msgpack tree per model component, in a fixed order. As written, each stops at its first tree with a `TypeError` (see Findings).

Modules, one per source file:

- `Base`: `Option`.
- `PyText`: the Python text handling that the PID file relies on. This covers `str.strip()` with the full `isspace` set, `int()` in base 10 (sign and `_` grouping), and `str()` of an integer.
- `Ipc`:
  - the dispatcher `agent_command_handler`;
  - the client `send_command_to_agent`, whose environment is an input: socket present, PID file, result of `os.kill`, how the connection ends;
  - one server iteration and the accept loop.
- `AgentCore`: the daemon as a transition system over a `Host`. A `Host` holds the PID file content, the socket and its directory, the `AGENT_RUNNING` flag, whether the handlers are installed, and how the process ended. Forks, the `os.setsid()` outcome, PID-file writability and the events reaching `accept` are inputs.
- `Cli`: subcommand to request, composed with the client and the dispatcher.
- `MlUtils`: `posixpath.join`, `get_enabled_save_path`, `_save_loop_state` and `_save_model_component`. Each is a *plan*: the ordered list of files a save writes, each with its directory, name and content. `Execute` then says how far a plan gets when directory creation and the sharding call can raise.
- `StateSaver`: the five dump variants, each compared with an independent description of the plan it should produce. It also holds the consequences of the sharding call for each variant.

The code's own names and docstrings promise more than it does; the model follows the code:

- `start` ("Starts the Lite Agent daemon.", cli.py:23) does not launch a daemon. It sends `{"command": "start_daemon"}` to the client. With no socket file it is told `Agent not running or socket missing.`. When the daemon answers, the dispatcher treats the request as an unknown command. Otherwise it gets one of the client's connection errors.
- `stop` ("Stops the Lite Agent daemon.", cli.py:31) over the socket is only acknowledged. The accept loop carries on and nothing is signalled. The only signal is the SIGTERM sent from the PID-file fallback, when the socket is missing.
- `status` asks the daemon over the socket. It does not check the recorded pid's liveness.
- The guard `os.getpid() != os.setsid()` always holds when `os.setsid()` returns, because it returns `None`. So the daemon always detaches, unless `os.setsid()` raises. It raises in a process that already leads its process group, and the process then ends with status 1.

## Model

| member | source | states |
|---|---|---|
| PyText.Strip | src/lite_agent/ipc.py:41 | The result is a slice of the input with only whitespace before and after it, and has no whitespace at either end: exactly the input without its leading and trailing whitespace runs. Already-stripped text is left alone; all-whitespace text becomes empty |
| PyText.Decimal | src/lite_agent/agent_core.py:70 | `str(n)` is a non-empty string of digits; it starts with `0` only for 0, and a result longer than one digit never starts with `0` |
| PyText.DecimalValue | src/lite_agent/agent_core.py:70 | The digits of `str(n)` denote `n` again |
| PyText.ParseInt | src/lite_agent/ipc.py:41 | `int()` succeeds exactly when the stripped text is an optional `+` or `-` followed by a digit literal (with `_` grouping). The value is the literal's, negated after a `-`; blank text fails |
| PyText.PidTextRoundTrip | src/lite_agent/ipc.py:41 | `int(str(n).strip()) == n` for every non-negative `n`: what the daemon writes, the client reads back |
| PyText.NegativeLiteral | src/lite_agent/ipc.py:41 | A `-` followed by a digit literal parses to the negated value |
| PyText.IntText | src/lite_agent/ipc.py:142 | `str(i)` starts with `-` exactly for negative `i`, and everything after that optional sign is digits with no leading zero (a lone `0` only for 0) |
| PyText.IntTextRoundTrip | src/lite_agent/ipc.py:142 | `int(str(i)) == i` for every integer; Python's 4300-digit conversion limit is left out (see below) |
| PyText.PositiveTextRoundTrip | src/lite_agent/ipc.py:41 | `int(str(n)) == n` for every non-negative `n`, without the `strip()` |
| Ipc.AgentCommandHandler | src/lite_agent/ipc.py:128-142 | Every request gets a reply with exactly one of `status`/`error`, all strings; it is an error exactly when the command is not `status`, `reload_config` or `stop_daemon`, and the error names the command as Python prints it |
| Ipc.KnownCommandReplies | src/lite_agent/ipc.py:133-141 | The exact replies to the three known commands |
| Ipc.MissingCommandIsNone | src/lite_agent/ipc.py:132-142 | A request without `command` is answered `Unknown command: None` |
| Ipc.StopByPidFile | src/lite_agent/ipc.py:37-47 | The fallback signals exactly the pid parsed from the PID file when it fits `pid_t`; otherwise it raises: `OverflowError` for an out-of-range pid, `UnboundLocalError` on `pid` when the file cannot be read or parsed. Pid 0 signals the client's own process group, so the client dies without replying |
| Ipc.SignalPid | src/lite_agent/ipc.py:42-47 | For a parsed pid: `OverflowError` outside `pid_t`; a failing `os.kill` is reported as `Failed to stop agent: ...`; pid 0 kills the client itself; any other pid is reported as `SIGTERM sent to agent.` |
| Ipc.UnparsablePidFileRaises | src/lite_agent/ipc.py:38-46 | With the socket missing, `stop` and a PID file that is unreadable or holds no number, the client raises instead of replying |
| Ipc.PidFileSignals | src/lite_agent/ipc.py:40-47 | A PID file naming an in-range pid makes the fallback send SIGTERM to that pid and report success, or report the `OSError` text; for pid 0 the client is killed instead of reporting |
| Ipc.StopByPidFileIntended | src/lite_agent/ipc.py:37-47 | The corrected fallback raises only for an out-of-range pid and kills the client only for pid 0; every other outcome is a well-formed reply, and a failure to stop without signalling is a single `Failed to stop agent: ...` error |
| Ipc.IntendedFallbackAgrees | src/lite_agent/ipc.py:45-47 | The corrected fallback agrees with the code as written wherever the latter does not hit the unassigned `pid`, and replies with an error exactly where it does |
| Ipc.Converse | src/lite_agent/ipc.py:50-73 | A decoded reply is returned as is; socket-missing, refused and other socket or JSON failures become fixed error replies; only invalid UTF-8 raises |
| Ipc.SendCommand | src/lite_agent/ipc.py:30-73 | A process is signalled only for `stop_daemon` with the socket missing; with the socket present the outcome is the conversation's; otherwise the reply is `Agent not running or socket missing.` |
| Ipc.FallbackTaken | src/lite_agent/ipc.py:34-37 | The PID-file fallback is taken when the socket is missing, the command is `stop_daemon` and a PID file exists |
| Ipc.ConnectFailures | src/lite_agent/ipc.py:50-73 | The fixed error text for each connection failure: a missing socket, a refused connection, and a failed connect, receive or decode that all report `IPC communication error: ` plus the reason |
| Ipc.Listen | src/lite_agent/ipc.py:82-96 | Setup fails exactly when a leftover socket cannot be removed; otherwise socket and directory exist |
| Ipc.Shutdown | src/lite_agent/ipc.py:119-124 | After the server's `finally` neither socket file nor directory exists |
| Ipc.ServeConnection | src/lite_agent/ipc.py:101-116 | A connection crashes the loop exactly for invalid UTF-8, JSON that is not an object, or a client that has gone before the answer is sent (`BrokenPipeError` from the `sendall` inside the `except`). Otherwise receive and decode errors are answered `{"error": reason}` and an object is answered by the dispatcher |
| Ipc.SilentClientCrashes | src/lite_agent/ipc.py:103-114 | A client that sends nothing and closes crashes the loop with `BrokenPipeError`; had it waited, it would get the JSON error |
| Ipc.ServeConnectionIntended | src/lite_agent/ipc.py:101-116 | The corrected iteration crashes only for invalid UTF-8 or a non-object, whatever the client does; a departed client only loses its answer |
| Ipc.IntendedServeAgrees | src/lite_agent/ipc.py:109-114 | The corrected iteration agrees with the code as written while the client is there, and drops the answer exactly where the code as written raises `BrokenPipeError` |
| Ipc.ServeAll | src/lite_agent/ipc.py:100-116 | The accept loop answers each connection in order with its own reply until the first crashing one (a departed client included), which gets none |
| Ipc.DaemonAnswer | src/lite_agent/ipc.py:103-109 | A request dict sent to the daemon comes back as the dispatcher's reply |
| AgentCore.WritePidFile | src/lite_agent/agent_core.py:69-70 | The PID file holds `str(pid)`, reads back as `pid`, and nothing else about the host changes |
| AgentCore.CleanupPidFile | src/lite_agent/agent_core.py:96-102 | Afterwards there is no PID file; a missing file is no error; nothing else changes |
| AgentCore.CleanupIdempotent | src/lite_agent/agent_core.py:96-102 | Cleaning up twice is cleaning up once |
| AgentCore.OnSigterm | src/lite_agent/agent_core.py:77-85 | With the handler: flag false, PID file gone, exit 0; without it: killed, files left |
| AgentCore.OnSighup | src/lite_agent/agent_core.py:88-93 | With the handler nothing changes; without it the process is killed |
| AgentCore.Daemonize | src/lite_agent/agent_core.py:27-74 | Parents exit 0, one per successful fork; a failed fork or unwritable PID file exits 1 without handlers and with the PID file as it was; a successful detach has written `str(pid)` to the PID file and installed both handlers; the socket is untouched |
| AgentCore.Serve | src/lite_agent/ipc.py:99-124 | The replies are the per-connection replies of the accepted connections in order, as in `Ipc.ServeAll`, and a crash is the exception of the first connection that raises; while serving the host is unchanged and every connection answered (which event ends the loop is `AgentCore.ServeEndsAtFirstStop`); leaving the loop by return, exception or the SIGTERM handler removes socket and directory; the flag never turns back on |
| AgentCore.StopCommandKeepsServing | src/lite_agent/ipc.py:137-141 | A `stop_daemon` request only adds its acknowledgement: the rest of the session is exactly as without it |
| AgentCore.SighupIgnored | src/lite_agent/agent_core.py:88-93 | A handled SIGHUP leaves the session exactly as without it |
| AgentCore.AfterServer | src/lite_agent/agent_core.py:137-141 | A normal return of the server is followed by PID-file cleanup and status 0; an escaping exception skips it and ends with status 1 |
| AgentCore.RunServer | src/lite_agent/agent_core.py:135-141 | Exit 0 leaves neither PID file nor socket; a process still running is listening; a failed setup leaves the PID file |
| AgentCore.StartDaemon | src/lite_agent/agent_core.py:117-141 | A refused `setsid` or a failed fork ends with status 1 before anything is written; all parents exit 0; exit 0 leaves no files behind; whoever serves has forked twice, installed the handlers and recorded its own pid in the PID file |
| AgentCore.SigtermEndsCleanly | src/lite_agent/agent_core.py:77-85 | A detached daemon whose socket path is free or holds a removable stale socket, and that gets SIGTERM after any number of requests, ends with status 0, the flag off and no PID file or socket |
| AgentCore.ServeUntilSigterm | src/lite_agent/agent_core.py:77-85 | With the handlers installed, any run of answered requests followed by SIGTERM ends the loop with status 0, the flag off, no PID file and no socket, one reply per request |
| AgentCore.FirstStop | src/lite_agent/ipc.py:99-124 | The position of the first event the accept loop does not survive (a raising connection, a signal without a handler, SIGTERM, `KeyboardInterrupt`), or the number of events when it survives all of them; every event before it is survived |
| AgentCore.ServeEndsAtFirstStop | src/lite_agent/ipc.py:99-124 | For every event sequence the loop stops exactly at `FirstStop`: still serving iff every event was survived; otherwise it ends as that event dictates (crash with the connection's exception, termination by the signal, normal return on `KeyboardInterrupt`), after exactly one reply per connection before it |
| AgentCore.ServeUntilInterrupt | src/lite_agent/ipc.py:99-124 | Answered requests followed by `KeyboardInterrupt` make the server return normally with the dispatcher's reply to each request, the socket and directory removed, PID file and run flag unchanged; later events are never seen |
| AgentCore.InterruptEndsCleanly | src/lite_agent/agent_core.py:135-141 | A detached, listening daemon on a free or removable socket path that is interrupted after any number of requests exits 0 with no PID file and no socket, one reply per request |
| AgentCore.ServeConnectionsThen | src/lite_agent/ipc.py:100-116 | Requests the dispatcher answers leave the host unchanged, one reply each, in order |
| AgentCore.NonObjectPayloadLeavesPidFile | src/lite_agent/agent_core.py:137-140 | On a free or removable socket path, a valid JSON payload that is not an object ends the daemon with status 1, socket removed but the PID file left behind |
| AgentCore.CrashLeavesPidFile | src/lite_agent/agent_core.py:137-140 | On a free or removable socket path, any connection the server cannot survive ends the daemon with status 1, no reply, socket removed and the PID file naming the dead process left behind |
| AgentCore.FirstConnectionCrashes | src/lite_agent/ipc.py:100-124 | A first connection that raises ends the loop at once: no reply, socket removed, nothing else changed |
| AgentCore.SilentClientLeavesPidFile | src/lite_agent/ipc.py:103-124 | On a free or removable socket path, a client that connects and closes without sending ends the daemon with status 1 and a stale PID file, the run flag still set |
| AgentCore.RunAgentTasks | src/lite_agent/agent_core.py:105-114 | `run_agent_tasks` runs its body exactly for the leading `True` reads of the flag and stops at the first `False`; nothing in the code calls it |
| Cli.RequestFor | src/lite_agent/cli.py:21-42 | `start`, `stop`, `status` send a one-key `command` request, `stop` the one the fallback reacts to; `status` is a known command and `start_daemon` is not; `config` sends nothing |
| Cli.Invoke | src/lite_agent/cli.py:21-70 | The agent is contacted exactly by the subcommands with a request, through the client |
| Cli.Requests | src/lite_agent/cli.py:25-41 | The exact request of each contacting subcommand |
| Cli.ConfigNeverContacts | src/lite_agent/cli.py:52-70 | `config get/set/show` never reach the agent |
| Cli.StartNeverLaunches | src/lite_agent/cli.py:21-26 | `start` signals nothing and launches nothing. With no socket file it gets `Agent not running or socket missing.`; when the daemon answers, it gets `Unknown command: start_daemon`; otherwise it gets one of the client's connection errors (see `Ipc.ConnectFailures`) |
| Cli.StatusFromDaemon | src/lite_agent/cli.py:37-42 | `status` against the daemon gets its fixed status reply |
| Cli.StopOverSocketOnlyAcknowledges | src/lite_agent/cli.py:29-34 | `stop` against the daemon gets only `Stop command received` |
| Cli.StopSignalsRecordedDaemon | src/lite_agent/ipc.py:37-44 | With the socket gone, `stop` sends SIGTERM to exactly the pid the daemon wrote into its PID file |
| MlUtils.Join | src/lite_agent/ml_utils.py:60 | `posixpath.join`: an absolute second part replaces the first; otherwise the parts are concatenated with one `/` between them, which is left out exactly when the first part is empty or already ends with `/` |
| MlUtils.JoinInjective | src/lite_agent/ml_utils.py:58-60 | Different component names give different directories |
| MlUtils.EnabledSavePath | src/lite_agent/ml_utils.py:49-60 | A path exactly when enabled; `""` and `"."` give the base directory, other names the joined path |
| MlUtils.SaveLoopState | src/lite_agent/ml_utils.py:66-74 | One `loop_state.pkl` write in `save_dir` when enabled, none otherwise |
| MlUtils.PayloadChoice | src/lite_agent/ml_utils.py:122-130 | An explicit tree wins; else the full train state exactly when it is saved and the component is not a target, else its params |
| MlUtils.SaveModelComponent | src/lite_agent/ml_utils.py:94-161 | Nothing unless the path is enabled and non-empty; then config first exactly when a config source is given, the tree last exactly when there is a payload, all in the component's directory, named `train_state.msgpack` exactly for an unflagged train state object |
| MlUtils.ComponentFiles | src/lite_agent/ml_utils.py:115-158 | Within an enabled path: at most two writes, all in that directory, the config first exactly when a config source is given, the tree last exactly when there is a payload |
| MlUtils.TreeWrite | src/lite_agent/ml_utils.py:133-140 | The tree is named `train_state.msgpack` exactly for a train state object saved as such outside a target component, `params.msgpack` otherwise |
| MlUtils.Execute | src/lite_agent/ml_utils.py:143-158 | Carrying out a plan performs a prefix of it, every write before the first obstacle, and fails with exactly that obstacle |
| StateSaver.TrainedPlan | src/lite_agent/ml_utils.py:111-158 | A trained component plans its config and then its train state or params, in its own directory |
| StateSaver.TargetPlan | src/lite_agent/model_state_saver.py:249-260 | A target component is planned exactly when its params are given, and always as `params.msgpack` |
| StateSaver.DisabledPlansNothing | src/lite_agent/ml_utils.py:56-57 | With saving disabled no variant plans any write |
| StateSaver.RootConfigPlan | src/lite_agent/model_state_saver.py:39-75 | Loop state, then config and tree in `save_dir` itself; an empty `save_dir` plans only the loop state |
| StateSaver.BaseSubdirPlan | src/lite_agent/model_state_saver.py:78-114 | Loop state, then config and tree in `save_dir/base` |
| StateSaver.BaseQHeadPlan | src/lite_agent/model_state_saver.py:117-160 | Loop state, then base, then q_head |
| StateSaver.PolicyValueHeadPlan | src/lite_agent/model_state_saver.py:163-206 | Loop state, then policy with the policy sharding, then value_head with the head sharding |
| StateSaver.ComplexPlan | src/lite_agent/model_state_saver.py:209-327 | The fixed order base, [target_base], q1_head, q2_head, v_head, [q1_target_head], [q2_target_head], each bracketed one present exactly when its params are |
| StateSaver.StopsAtFirstTree | src/lite_agent/ml_utils.py:146-148 | A one-argument sharding call stops a plan at its first sharded tree |
| StateSaver.LocatedCompletes | src/lite_agent/ml_utils.py:143-158 | With the intended call, a plan whose directories are all non-empty is carried out in full |
| StateSaver.FirstComponentStops | src/lite_agent/ml_utils.py:115-148 | As written, the loop state and the first component's config are written, then the sharding call raises |
| StateSaver.AsWrittenRootConfigStops | src/lite_agent/model_state_saver.py:62-75 | As written, the root-config save writes no tree |
| StateSaver.AsWrittenBaseSubdirStops | src/lite_agent/model_state_saver.py:101-114 | As written, the base-subdirectory save writes no tree |
| StateSaver.AsWrittenBaseQHeadStops | src/lite_agent/model_state_saver.py:134-160 | As written, the Q-head is never reached |
| StateSaver.AsWrittenPolicyValueHeadStops | src/lite_agent/model_state_saver.py:180-206 | As written, the value head is never reached |
| StateSaver.AsWrittenComplexStops | src/lite_agent/model_state_saver.py:233-327 | As written, the complex save stops at the base tree; no head or target is saved |
| StateSaver.IntendedComplexCompletes | src/lite_agent/model_state_saver.py:209-327 | With the intended two-argument sharding call, an enabled complex save into a non-empty directory completes its whole plan |
| StateSaver.EmptySaveDirRaises | src/lite_agent/ml_utils.py:70-71 | `dump_state_complex`, enabled, with an empty `save_dir` fails before writing anything, since the loop-state directory is `""` |

## Left out

- Forks, `setsid`, `chdir`, `umask` and the redirection of the standard streams: their outcomes are inputs (`Launch`), and their other effects on the process are not modelled.
- Real sockets, the 4096-byte `recv` limit and partial reads: a connection is its received frame, already classified as a receive failure, invalid UTF-8, malformed JSON or a decoded document, together with whether the client is still there when the server answers.
- JSON, pickle and msgpack encodings, `json.dumps` of the reply, `save_dtype`, the `save_pytree` call itself and the bodies of the sharding placeholders, which only print and return `None`.
- Signals arriving while a connection is being handled: signals are modelled between connections only.
- Logging, `click.echo`, `print` and `time.sleep`: none of them decides anything.
- `main.py`: it only starts the CLI and is not part of this model.
- Failures of `os.makedirs`, `os.remove` and `os.rmdir` other than the stale socket and the empty directory name: the model assumes those calls succeed.
- A PID-file lifecycle that reports the liveness of the recorded process: the code has none, so it has no counterpart here.
- PyText.ParseInt: accepts ASCII digits only, whereas Python's `int()` also accepts other Unicode decimal digits.
- PyText.ParseInt, PyText.IntText and PyText.IntTextRoundTrip: Python's limit of 4300 digits on int/str conversion is not modelled. A PID file with more digits makes the model raise `OverflowError` where the code raises `UnboundLocalError`. A JSON integer that long makes `json.loads` raise a `ValueError` that neither the client nor the server catches, which a `Frame` cannot express.
- Ipc.StopByPidFile: a negative pid reaches a process group (every process the user may signal for -1), not one process. The model records only the argument given to `os.kill` and, as the code does, reports success.
- Ipc.StopByPidFileIntended: its `ValueError` message quotes the text with plain single quotes, not with Python's full `repr` escaping.
- The client's `stop` behaviour (`Ipc.SendCommand`) keeps the code as written; the corrected fallback stands beside it and is related to it by `Ipc.IntendedFallbackAgrees`.
- The daemon's accept loop (`AgentCore.Serve`, `Ipc.ServeAll`) keeps the code as written, crashing on a departed client; the corrected iteration stands beside it and is related to it by `Ipc.IntendedServeAgrees`.
- AgentCore.RunAgentTasks: it is not tied to `Host.running` or to a daemon run, because nothing in the code calls `run_agent_tasks`; the flag reads are its input.
- Blocking calls: the client sets no timeout on `connect` or `recv` (ipc.py:50-58), and the server handles one connection at a time. A client that connects and then neither sends nor closes would block every later CLI call, `stop` included. `Ipc.Link` and `Ipc.Conn` describe only calls that return, so a call that never returns is not modelled.

## Findings

| source | as written | input that shows it | evidently intended | confidence | as-written member | corrected member |
|---|---|---|---|---|---|---|
| src/lite_agent/ipc.py:45-46 | The `except` clause logs `pid`, which is unassigned when opening the PID file or `int()` failed, so `UnboundLocalError` escapes | `stop` with the socket missing and a PID file holding `abc` (or empty) | Reply `{"error": "Failed to stop agent: ..."}` | high; not executed | Ipc.UnparsablePidFileRaises | Ipc.StopByPidFileIntended |
| src/lite_agent/ml_utils.py:148 | The sharding function is called with the model only, but every placeholder requires `(model, params)`, so `TypeError` escapes before any tree is saved | any enabled `dump_state_*` call with a non-empty `save_dir` | `sharding_fn(model, params)`, and every planned file is written | high; not executed | StateSaver.AsWrittenComplexStops | StateSaver.IntendedComplexCompletes |
| src/lite_agent/ipc.py:109-114 | The error reply is sent inside the `except` clause, so when the client has already closed, the `BrokenPipeError` of that `sendall` escapes the accept loop, and the daemon exits with status 1 and leaves its PID file | a client that connects and closes without sending anything | Log the failed send and keep serving, as the daemon is meant never to crash on a client | high; not executed | AgentCore.SilentClientLeavesPidFile | Ipc.ServeConnectionIntended |

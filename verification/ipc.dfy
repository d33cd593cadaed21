/** The control channel between the CLI and the daemon: the command
    dispatcher, the client's decision tree over what it finds on disk and on
    the socket, and the server's one-reply-per-connection rule.

    Messages are modelled once JSON and UTF-8 have been decoded: a request or
    a reply is a `Dict`, and a payload that could not be decoded is a `Frame`
    carrying the decoder's complaint. */
module Ipc {
  import opened Base
  import PyText

  /** A JSON value as Python holds it after `json.loads`. Lists, floats and
      nested objects are kept abstract: only their `str()` rendering is ever
      used. */
  datatype Value = Str(s: string) | Int(i: int) | Bool(b: bool) | Null | Nested(repr: string)

  type Dict = map<string, Value>

  /** The top level of a decoded payload: a dict, or any other JSON value. */
  datatype Document = Object(fields: Dict) | NonObject(value: Value)

  /** What reading one payload from a connection gives. */
  datatype Frame =
    | RecvFailed(reason: string)   // `socket.error` while receiving
    | BadUtf8                       // bytes that are not UTF-8
    | Malformed(reason: string)     // UTF-8 text that is not JSON
    | Decoded(doc: Document)

  /** Python exceptions that escape the functions of this model. */
  datatype Raised =
    | UnboundLocal(name: string)   // a local variable read before assignment
    | UnicodeDecode                 // `bytes.decode("utf-8")` failed
    | AttributeMissing(name: string)
    | Overflow                      // an integer too wide for a C `pid_t`
    | OsError(reason: string)
    | TypeMismatch(reason: string)
    | BrokenPipe                    // `sendall` to a client that has closed its end

  /** Python's `str()` of a decoded value, as an f-string renders it. */
  function Show(v: Value): string {
    match v
    case Str(s) => s
    case Int(i) => PyText.IntText(i)
    case Bool(b) => if b then "True" else "False"
    case Null => "None"
    case Nested(repr) => repr
  }

  /** `d.get(key)`: a missing key reads as `None`, like a JSON `null`. */
  function Get(d: Dict, key: string): Value {
    if key in d then d[key] else Null
  }

  function StatusReply(text: string): Dict {
    map["status" := Str(text)]
  }

  function ErrorReply(text: string): Dict {
    map["error" := Str(text)]
  }

  /** A reply the control plane promises: exactly one of `status` and
      `error`, and every field a string. */
  predicate WellFormedReply(r: Dict) {
    && ("status" in r) != ("error" in r)
    && forall k :: k in r ==> r[k].Str?
  }

  /** The command names the dispatcher recognises. */
  predicate IsKnownCommand(v: Value) {
    v == Str("status") || v == Str("reload_config") || v == Str("stop_daemon")
  }

  // ---------------------------------------------------------------------
  // Command dispatcher (agent_command_handler)
  // ---------------------------------------------------------------------

  /** The reply the daemon gives to one request. It is total, always well
      formed, and an error exactly when the command is not one it knows; the
      error names the command as Python prints it. */
  function AgentCommandHandler(request: Dict): (r: Dict)
    ensures WellFormedReply(r)
    ensures "error" in r <==> !IsKnownCommand(Get(request, "command"))
    ensures "error" in r ==> r["error"] == Str("Unknown command: " + Show(Get(request, "command")))
  {
    var command := Get(request, "command");
    if command == Str("status") then
      map["status" := Str("Agent is running"), "uptime" := Str("X hours")]
    else if command == Str("reload_config") then
      StatusReply("Config reloaded")
    else if command == Str("stop_daemon") then
      StatusReply("Stop command received")
    else
      ErrorReply("Unknown command: " + Show(command))
  }

  /** The fixed replies to the three known commands. */
  lemma KnownCommandReplies(request: Dict)
    ensures Get(request, "command") == Str("status") ==>
      AgentCommandHandler(request) == map["status" := Str("Agent is running"), "uptime" := Str("X hours")]
    ensures Get(request, "command") == Str("reload_config") ==>
      AgentCommandHandler(request) == map["status" := Str("Config reloaded")]
    ensures Get(request, "command") == Str("stop_daemon") ==>
      AgentCommandHandler(request) == map["status" := Str("Stop command received")]
  {
  }

  /** A request with no `command` key, or a `null` one, is reported as
      "Unknown command: None". */
  lemma MissingCommandIsNone(request: Dict)
    requires "command" !in request || request["command"] == Null
    ensures AgentCommandHandler(request) == map["error" := Str("Unknown command: None")]
  {
    assert "Unknown command: " + Show(Null) == "Unknown command: None";
  }

  // ---------------------------------------------------------------------
  // Client (send_command_to_agent)
  // ---------------------------------------------------------------------

  /** What the client finds at the PID file path. */
  datatype PidFile =
    | Absent
    | Unreadable(reason: string)   // exists, but opening or reading it fails
    | Holds(content: string)

  /** How connecting to the socket and exchanging one message ends. */
  datatype Link =
    | SocketGone                   // `FileNotFoundError` on connect
    | Refused                      // `ConnectionRefusedError`
    | LinkFailed(reason: string)   // any other `socket.error` while talking
    | Answered(reply: Frame)       // the bytes of one reply arrived

  /** Everything outside the client that decides its answer: whether the
      socket path exists, the PID file, the result `os.kill` would have, and
      how a connection would go. */
  datatype ClientEnv = ClientEnv(
    socketExists: bool,
    pidFile: PidFile,
    killError: Option<string>,
    link: Link)

  /** How a client call ends: it returns, it raises, or the client process
      itself dies of the SIGTERM it sent. `os.kill(0, sig)` signals the
      caller's own process group, and POSIX has the signal delivered to the
      caller before `kill` returns. */
  datatype Outcome = Returned(doc: Document) | Threw(exc: Raised) | ClientKilled

  /** One call of the client: the process it sent SIGTERM to, if any, and
      what the call returned or raised. */
  datatype Call = Call(signalled: Option<int>, outcome: Outcome)

  /** `os.kill` converts its pid to a C `pid_t`, a 32-bit signed integer. */
  predicate FitsPidT(pid: int) {
    -0x8000_0000 <= pid < 0x8000_0000
  }

  /** `os.kill(pid, SIGTERM)` once the PID file has been parsed, and the
      reply that follows: a pid outside `pid_t` raises `OverflowError`; a
      failing call is reported; pid 0 reaches the client itself; any other
      pid is reported as signalled. */
  function SignalPid(pid: int, killError: Option<string>): (r: Call)
    ensures r.signalled.Some? <==> FitsPidT(pid)
    ensures r.signalled.Some? ==> r.signalled == Some(pid)
    ensures r.signalled.None? ==> r.outcome == Threw(Overflow)
    ensures FitsPidT(pid) && killError.Some? ==>
      r.outcome == Returned(Object(map["error" := Str("Failed to stop agent: " + killError.value)]))
    ensures FitsPidT(pid) && killError.None? && pid != 0 ==>
      r.outcome == Returned(Object(map["status" := Str("SIGTERM sent to agent.")]))
    ensures r.outcome.ClientKilled? <==> pid == 0 && killError.None?
    ensures r.outcome.Returned? ==> r.signalled.Some? && r.outcome.doc.Object? && WellFormedReply(r.outcome.doc.fields)
  {
    if !FitsPidT(pid) then Call(None, Threw(Overflow))
    else if killError.Some? then Call(Some(pid), Returned(Object(ErrorReply("Failed to stop agent: " + killError.value))))
    else if pid == 0 then Call(Some(0), ClientKilled)
    else Call(Some(pid), Returned(Object(StatusReply("SIGTERM sent to agent."))))
  }

  /** The fallback of ipc.py when the socket is missing and a stop was asked
      for: read the PID file and send SIGTERM. As written, a failure to open
      or to parse the file leads the `except` clause to read `pid`, which was
      never assigned, so the call raises instead of returning an error. A PID
      file holding 0 makes the client signal its own process group, and so
      itself. */
  function StopByPidFile(pidFile: PidFile, killError: Option<string>): (r: Call)
    requires !pidFile.Absent?
    ensures r.signalled.Some? <==> pidFile.Holds? && PyText.ParseInt(PyText.Strip(pidFile.content)).Some?
                                   && FitsPidT(PyText.ParseInt(PyText.Strip(pidFile.content)).value)
    ensures r.signalled.Some? ==> r.signalled == PyText.ParseInt(PyText.Strip(pidFile.content))
    ensures r.signalled.None? ==> r.outcome.Threw?
    ensures r.outcome.Threw? && r.outcome.exc != Overflow ==> r.outcome.exc == UnboundLocal("pid")
    ensures r.outcome.ClientKilled? <==> r.signalled == Some(0) && killError.None?
  {
    match pidFile
    case Unreadable(_) => Call(None, Threw(UnboundLocal("pid")))
    case Holds(content) =>
      var text := PyText.Strip(content);
      match PyText.ParseInt(text)
      case None => Call(None, Threw(UnboundLocal("pid")))
      case Some(pid) => SignalPid(pid, killError)
  }

  /** What the client makes of a connection attempt. */
  function Converse(link: Link): (r: Outcome)
    ensures r.Threw? <==> link == Answered(BadUtf8)
    ensures link.Answered? && link.reply.Decoded? ==> r == Returned(link.reply.doc)
    ensures r.Returned? && !(link.Answered? && link.reply.Decoded?) ==>
      r.doc.Object? && WellFormedReply(r.doc.fields) && "error" in r.doc.fields
  {
    match link
    case SocketGone => Returned(Object(ErrorReply("Socket file not found.")))
    case Refused => Returned(Object(ErrorReply("Agent refused connection.")))
    case LinkFailed(reason) => Returned(Object(ErrorReply("IPC communication error: " + reason)))
    case Answered(frame) =>
      match frame
      case RecvFailed(reason) => Returned(Object(ErrorReply("IPC communication error: " + reason)))
      case BadUtf8 => Threw(UnicodeDecode)
      case Malformed(reason) => Returned(Object(ErrorReply("IPC communication error: " + reason)))
      case Decoded(doc) => Returned(doc)
  }

  /** `send_command_to_agent`: the full decision tree. No process is ever
      signalled except through the stop fallback, and the socket is only
      used when its path exists. */
  function SendCommand(request: Dict, env: ClientEnv): (r: Call)
    ensures r.signalled.Some? ==> !env.socketExists && Get(request, "command") == Str("stop_daemon")
    ensures env.socketExists ==> r == Call(None, Converse(env.link))
    ensures !env.socketExists && (Get(request, "command") != Str("stop_daemon") || env.pidFile.Absent?) ==>
      r == Call(None, Returned(Object(map["error" := Str("Agent not running or socket missing.")])))
  {
    if !env.socketExists then
      if Get(request, "command") == Str("stop_daemon") && !env.pidFile.Absent? then
        StopByPidFile(env.pidFile, env.killError)
      else
        Call(None, Returned(Object(ErrorReply("Agent not running or socket missing."))))
    else
      Call(None, Converse(env.link))
  }

  /** The stop fallback is taken exactly when the socket is missing, the
      command is `stop_daemon` and a PID file exists. */
  lemma FallbackTaken(request: Dict, env: ClientEnv)
    requires !env.socketExists && Get(request, "command") == Str("stop_daemon")
    requires !env.pidFile.Absent?
    ensures SendCommand(request, env) == StopByPidFile(env.pidFile, env.killError)
  {
  }

  /** Given a PID file naming `pid`, SIGTERM goes to `pid`; the reply reports
      success, or the `OSError` that `os.kill` raised. For pid 0 there is no
      reply: the client's own process group, the client included, gets the
      signal. */
  lemma PidFileSignals(pidFile: PidFile, killError: Option<string>, pid: int)
    requires pidFile.Holds? && PyText.ParseInt(PyText.Strip(pidFile.content)) == Some(pid)
    requires FitsPidT(pid)
    ensures StopByPidFile(pidFile, killError).signalled == Some(pid)
    ensures killError.None? && pid != 0 ==>
      StopByPidFile(pidFile, killError).outcome == Returned(Object(map["status" := Str("SIGTERM sent to agent.")]))
    ensures killError.None? && pid == 0 ==> StopByPidFile(pidFile, killError).outcome == ClientKilled
    ensures killError.Some? ==>
      StopByPidFile(pidFile, killError).outcome == Returned(Object(map["error" := Str("Failed to stop agent: " + killError.value)]))
  {
    assert StopByPidFile(pidFile, killError) == SignalPid(pid, killError);
  }

  /** A PID file that is empty or holds no number makes the stop fallback
      raise (the unassigned `pid`), not return an error reply. */
  lemma UnparsablePidFileRaises(request: Dict, env: ClientEnv)
    requires !env.socketExists && Get(request, "command") == Str("stop_daemon")
    requires env.pidFile.Unreadable? || (env.pidFile.Holds? && PyText.ParseInt(PyText.Strip(env.pidFile.content)).None?)
    ensures SendCommand(request, env) == Call(None, Threw(UnboundLocal("pid")))
  {
  }

  /** The message of the `ValueError` that `int()` raises for text that is
      not a base-10 literal (the quoting of `repr` is simplified to plain
      single quotes). */
  function InvalidLiteral(text: string): string {
    "invalid literal for int() with base 10: '" + text + "'"
  }

  /** An error reply reporting a failed stop. */
  predicate IsStopFailure(d: Dict) {
    && d.Keys == {"error"} && d["error"].Str?
    && |d["error"].s| >= 22 && d["error"].s[..22] == "Failed to stop agent: "
  }

  lemma StopFailureShape(detail: string)
    ensures IsStopFailure(ErrorReply("Failed to stop agent: " + detail))
  {
    var t := "Failed to stop agent: " + detail;
    assert t[..22] == "Failed to stop agent: ";
  }

  /** The stop fallback as its `except` clause evidently means it: a PID file
      that cannot be read or parsed is reported as a failure to stop, like a
      failing `os.kill`. Only a pid outside `pid_t` still raises, since
      `OverflowError` is not among the caught exceptions. */
  function StopByPidFileIntended(pidFile: PidFile, killError: Option<string>): (r: Call)
    requires !pidFile.Absent?
    ensures r.outcome.Threw? <==> pidFile.Holds? && PyText.ParseInt(PyText.Strip(pidFile.content)).Some?
                                  && !FitsPidT(PyText.ParseInt(PyText.Strip(pidFile.content)).value)
    ensures r.outcome.Threw? ==> r.outcome.exc == Overflow
    ensures r.outcome.Returned? ==> r.outcome.doc.Object? && WellFormedReply(r.outcome.doc.fields)
    ensures r.signalled.None? && r.outcome.Returned? ==> IsStopFailure(r.outcome.doc.fields)
    ensures r.outcome.ClientKilled? <==> r.signalled == Some(0) && killError.None?
  {
    match pidFile
    case Unreadable(reason) =>
      StopFailureShape(reason);
      Call(None, Returned(Object(ErrorReply("Failed to stop agent: " + reason))))
    case Holds(content) =>
      var text := PyText.Strip(content);
      match PyText.ParseInt(text)
      case None =>
        StopFailureShape(InvalidLiteral(text));
        Call(None, Returned(Object(ErrorReply("Failed to stop agent: " + InvalidLiteral(text)))))
      case Some(pid) => SignalPid(pid, killError)
  }

  /** The intended fallback differs from the code as written only where the
      latter raises on the unassigned `pid`: wherever the code as written
      signals, overflows or replies, both agree. */
  lemma IntendedFallbackAgrees(pidFile: PidFile, killError: Option<string>)
    requires !pidFile.Absent?
    ensures StopByPidFile(pidFile, killError).outcome != Threw(UnboundLocal("pid")) ==>
      StopByPidFileIntended(pidFile, killError) == StopByPidFile(pidFile, killError)
    ensures StopByPidFile(pidFile, killError).outcome == Threw(UnboundLocal("pid")) <==>
      StopByPidFileIntended(pidFile, killError).signalled.None? && StopByPidFileIntended(pidFile, killError).outcome.Returned?
  {
  }

  /** The connection failures map to fixed error replies. */
  lemma ConnectFailures(request: Dict, env: ClientEnv, reason: string)
    requires env.socketExists
    ensures env.link == SocketGone ==>
      SendCommand(request, env).outcome == Returned(Object(map["error" := Str("Socket file not found.")]))
    ensures env.link == Refused ==>
      SendCommand(request, env).outcome == Returned(Object(map["error" := Str("Agent refused connection.")]))
    ensures env.link == LinkFailed(reason) || env.link == Answered(RecvFailed(reason)) || env.link == Answered(Malformed(reason)) ==>
      SendCommand(request, env).outcome == Returned(Object(map["error" := Str("IPC communication error: " + reason)]))
  {
  }

  // ---------------------------------------------------------------------
  // Server (start_ipc_server)
  // ---------------------------------------------------------------------

  /** The socket file and its directory. */
  datatype Endpoint = Endpoint(socketFile: bool, socketDir: bool)

  /** Setting up the listener: a leftover socket file is removed first (if
      that fails the `OSError` propagates), then the directory is made and
      the socket bound. */
  function Listen(ep: Endpoint, staleRemovable: bool): (r: Option<Endpoint>)
    ensures r.None? <==> ep.socketFile && !staleRemovable
    ensures r.Some? ==> r.value.socketFile && r.value.socketDir
  {
    if ep.socketFile && !staleRemovable then None
    else Some(Endpoint(true, true))
  }

  /** The `finally` of the server loop: socket file and directory are gone. */
  function Shutdown(ep: Endpoint): (r: Endpoint)
    ensures !r.socketFile && !r.socketDir
  {
    Endpoint(false, false)
  }

  /** An accepted connection: what the server reads from it, and whether
      the client is still connected when the server writes to it. A client
      that connects and closes at once sends nothing, which reads as the
      JSON error for empty text. */
  datatype Conn = Conn(frame: Frame, peerOpen: bool)

  /** A connection carrying a request dict to a client that waits for the
      answer. */
  predicate IsRequest(c: Conn) {
    c.peerOpen && c.frame.Decoded? && c.frame.doc.Object?
  }

  /** How one accepted connection ends: one reply sent, or an exception that
      the server's `except` does not catch and that ends the loop. */
  datatype Served = Reply(response: Dict) | Crash(exc: Raised)

  /** Sending an answer: a client that has gone makes `sendall` raise
      `BrokenPipeError`, since Python ignores SIGPIPE. */
  function Send(answer: Dict, peerOpen: bool): Served {
    if peerOpen then Reply(answer) else Crash(BrokenPipe)
  }

  /** One iteration of the accept loop. Receive and JSON-decode failures are
      answered with `{"error": <reason>}`; a dict is answered by the
      dispatcher. Bytes that are not UTF-8, and JSON that is not an object
      (the dispatcher calls `.get` on it), escape the `except` clause before
      anything is sent. Any other connection whose client has gone crashes
      the loop too: the `sendall` of the answer raises `BrokenPipeError`,
      which the `except` catches, and the `sendall` of the error reply
      inside that `except` raises it again, uncaught. */
  function ServeConnection(c: Conn): (r: Served)
    ensures r.Crash? <==> c.frame.BadUtf8? || (c.frame.Decoded? && c.frame.doc.NonObject?) || !c.peerOpen
    ensures r == Crash(BrokenPipe) <==> !c.peerOpen && !c.frame.BadUtf8? && !(c.frame.Decoded? && c.frame.doc.NonObject?)
    ensures r.Reply? ==> WellFormedReply(r.response)
    ensures c.peerOpen && c.frame.Decoded? && c.frame.doc.Object? ==> r == Reply(AgentCommandHandler(c.frame.doc.fields))
    ensures c.peerOpen && (c.frame.RecvFailed? || c.frame.Malformed?) ==> r == Reply(map["error" := Str(c.frame.reason)])
  {
    match c.frame
    case RecvFailed(reason) => Send(ErrorReply(reason), c.peerOpen)
    case BadUtf8 => Crash(UnicodeDecode)
    case Malformed(reason) => Send(ErrorReply(reason), c.peerOpen)
    case Decoded(doc) =>
      match doc
      case Object(fields) => Send(AgentCommandHandler(fields), c.peerOpen)
      case NonObject(_) => Crash(AttributeMissing("get"))
  }

  /** A client that connects and closes without sending anything crashes
      the accept loop: the empty payload is a JSON error, and the error
      reply cannot be sent. */
  lemma SilentClientCrashes(reason: string)
    ensures ServeConnection(Conn(Malformed(reason), false)) == Crash(BrokenPipe)
    ensures ServeConnection(Conn(Malformed(reason), true)) == Reply(map["error" := Str(reason)])
  {
  }

  /** One iteration of the accept loop as the daemon's design means it: a
      failed send is logged and the loop goes on, so a client that has left
      costs only its own answer (`None`). Only the two exceptions raised
      before any send still escape. */
  function ServeConnectionIntended(c: Conn): (r: Option<Served>)
    ensures r.None? <==> !c.peerOpen && !c.frame.BadUtf8? && !(c.frame.Decoded? && c.frame.doc.NonObject?)
    ensures r.Some? && r.value.Crash? <==> c.frame.BadUtf8? || (c.frame.Decoded? && c.frame.doc.NonObject?)
    ensures r.Some? && r.value.Reply? ==> WellFormedReply(r.value.response)
  {
    match c.frame
    case BadUtf8 => Some(Crash(UnicodeDecode))
    case Decoded(NonObject(_)) => Some(Crash(AttributeMissing("get")))
    case Decoded(Object(fields)) => if c.peerOpen then Some(Reply(AgentCommandHandler(fields))) else None
    case RecvFailed(reason) => if c.peerOpen then Some(Reply(ErrorReply(reason))) else None
    case Malformed(reason) => if c.peerOpen then Some(Reply(ErrorReply(reason))) else None
  }

  /** The intended iteration differs from the code as written only where the
      latter crashes on a failed send: with the client still there both
      agree, and the code as written raises `BrokenPipeError` exactly where
      the intended one drops the answer and keeps serving. */
  lemma IntendedServeAgrees(c: Conn)
    ensures c.peerOpen ==> ServeConnectionIntended(c) == Some(ServeConnection(c))
    ensures ServeConnection(c) == Crash(BrokenPipe) <==> ServeConnectionIntended(c).None?
    ensures ServeConnection(c).Crash? && ServeConnection(c) != Crash(BrokenPipe) ==>
      ServeConnectionIntended(c) == Some(ServeConnection(c))
  {
  }

  /** The accept loop over a sequence of connections: each one is answered
      with exactly the reply `ServeConnection` gives, in order, until the
      first one that raises; that one gets no reply and ends the loop. */
  method ServeAll(conns: seq<Conn>) returns (replies: seq<Dict>, crash: Option<Raised>)
    ensures |replies| <= |conns|
    ensures forall i :: 0 <= i < |replies| ==> ServeConnection(conns[i]) == Reply(replies[i])
    ensures crash.None? ==> |replies| == |conns|
    ensures crash.Some? ==> |replies| < |conns| && ServeConnection(conns[|replies|]) == Crash(crash.value)
  {
    replies := [];
    crash := None;
    var i := 0;
    while i < |conns|
      invariant 0 <= i <= |conns|
      invariant |replies| == i
      invariant forall j :: 0 <= j < i ==> ServeConnection(conns[j]) == Reply(replies[j])
    {
      match ServeConnection(conns[i]) {
        case Reply(response) =>
          replies := replies + [response];
        case Crash(exc) =>
          crash := Some(exc);
          return;
      }
      i := i + 1;
    }
  }

  /** What the client receives when the daemon's own server answers
      `request`: the handler's reply, decoded. A request dict never crashes
      the server. */
  function DaemonAnswer(request: Dict): (link: Link)
    ensures link == Answered(Decoded(Object(AgentCommandHandler(request))))
  {
    match ServeConnection(Conn(Decoded(Object(request)), true))
    case Reply(response) => Answered(Decoded(Object(response)))
    case Crash(_) => Answered(Malformed("Expecting value: line 1 column 1 (char 0)"))
  }
}

/** The daemon's lifecycle as a small transition system: detachment with its
    two forks, the PID file, the run flag, the two signal handlers, the accept
    loop of the control channel, and the cleanup once that loop ends.

    Forks, the session-leader test, the writability of the PID file and the
    events that reach the blocked accept call are inputs. */
module AgentCore {
  import opened Base
  import PyText
  import Ipc

  datatype Signal = SigTerm | SigHup

  /** How a process ended: `sys.exit(status)` or an uncaught exception
      (status 1), or the default action of a signal with no handler. */
  datatype Exit = Code(status: int) | KilledBy(signal: Signal)

  /** The daemon process together with the files it owns: the PID file's
      content, the socket, the run flag, whether the handlers for SIGTERM
      and SIGHUP are installed, and how the process ended, if it has. */
  datatype Host = Host(
    pidFile: Option<string>,
    endpoint: Ipc.Endpoint,
    running: bool,
    handlersInstalled: bool,
    exited: Option<Exit>)

  /** A process just started by the CLI: the flag is `True` (its initial
      value in the module), no handler is installed, nothing has ended. */
  function Launched(pidFile: Option<string>, endpoint: Ipc.Endpoint): Host {
    Host(pidFile, endpoint, true, false, None)
  }

  // ---------------------------------------------------------------------
  // PID file registry
  // ---------------------------------------------------------------------

  /** Writes `str(pid)` to the PID file. Reading the file back the way the
      client does (`int(content.strip())`) gives `pid` again; nothing else
      changes. */
  function WritePidFile(h: Host, pid: nat): (r: Host)
    ensures r.pidFile == Some(PyText.Decimal(pid))
    ensures PyText.ParseInt(PyText.Strip(r.pidFile.value)) == Some(pid)
    ensures r.(pidFile := h.pidFile) == h
  {
    PyText.PidTextRoundTrip(pid);
    h.(pidFile := Some(PyText.Decimal(pid)))
  }

  /** `_cleanup_pid_file`: afterwards there is no PID file; with none there
      to begin with it changes nothing; the flag, socket, handlers and exit
      are untouched. */
  function CleanupPidFile(h: Host): (r: Host)
    ensures r.pidFile.None?
    ensures h.pidFile.None? ==> r == h
    ensures r.endpoint == h.endpoint && r.running == h.running
    ensures r.handlersInstalled == h.handlersInstalled && r.exited == h.exited
  {
    if h.pidFile.Some? then h.(pidFile := None) else h
  }

  /** Removing the PID file twice is the same as removing it once. */
  lemma CleanupIdempotent(h: Host)
    ensures CleanupPidFile(CleanupPidFile(h)) == CleanupPidFile(h)
  {
  }

  // ---------------------------------------------------------------------
  // Signal handlers
  // ---------------------------------------------------------------------

  /** SIGTERM. With `_handle_sigterm` installed: the flag drops, the PID file
      is removed and the process exits with status 0. Without it the
      default action kills the process and leaves every file in place. */
  function OnSigterm(h: Host): (r: Host)
    ensures h.handlersInstalled ==> !r.running && r.pidFile.None? && r.exited == Some(Code(0))
    ensures !h.handlersInstalled ==> r.pidFile == h.pidFile && r.exited == Some(KilledBy(SigTerm))
    ensures r.endpoint == h.endpoint
  {
    if h.handlersInstalled then
      CleanupPidFile(h.(running := false)).(exited := Some(Code(0)))
    else
      h.(exited := Some(KilledBy(SigTerm)))
  }

  /** SIGHUP. With `_handle_sighup` installed it only logs: the state is
      unchanged. Without it the default action kills the process. */
  function OnSighup(h: Host): (r: Host)
    ensures h.handlersInstalled ==> r == h
    ensures !h.handlersInstalled ==> r == h.(exited := Some(KilledBy(SigHup)))
  {
    if h.handlersInstalled then h else h.(exited := Some(KilledBy(SigHup)))
  }

  // ---------------------------------------------------------------------
  // Detachment (_daemonize)
  // ---------------------------------------------------------------------

  /** The result of detaching: the exit statuses of the forking parents, in
      order; the state of the last process of the chain; whether it goes on
      to serve. */
  datatype Detached = Detached(parentExits: seq<int>, host: Host, continues: bool)

  /** `_daemonize`: fork, exit the parent with 0; fork again, exit that
      parent with 0; write the PID file; install the two handlers. A failed
      fork exits with 1, and so does a PID file that cannot be opened (the
      exception is not caught). The handlers are installed only once the PID
      file holds the surviving process's pid. */
  function Daemonize(h: Host, fork1: bool, fork2: bool, pid: nat, pidWritable: bool): (r: Detached)
    requires h.running && !h.handlersInstalled && h.exited.None?
    ensures forall i :: 0 <= i < |r.parentExits| ==> r.parentExits[i] == 0
    ensures |r.parentExits| == (if fork1 then 1 else 0) + (if fork1 && fork2 then 1 else 0)
    ensures r.continues <==> fork1 && fork2 && pidWritable
    ensures !r.continues ==> r.host.exited == Some(Code(1)) && !r.host.handlersInstalled
    ensures r.continues ==> r.host.exited.None? && r.host.running
    ensures r.host.handlersInstalled ==> r.host.pidFile == Some(PyText.Decimal(pid))
    ensures !(fork1 && fork2) ==> r.host.pidFile == h.pidFile
    ensures r.continues ==> r.host.handlersInstalled && r.host.pidFile == Some(PyText.Decimal(pid))
    ensures !r.continues ==> r.host.pidFile == h.pidFile
    ensures r.host.endpoint == h.endpoint
  {
    if !fork1 then
      Detached([], h.(exited := Some(Code(1))), false)
    else if !fork2 then
      Detached([0], h.(exited := Some(Code(1))), false)
    else if !pidWritable then
      Detached([0, 0], h.(exited := Some(Code(1))), false)
    else
      Detached([0, 0], WritePidFile(h, pid).(handlersInstalled := true), true)
  }

  // ---------------------------------------------------------------------
  // The accept loop under signals
  // ---------------------------------------------------------------------

  /** What reaches the process blocked in `accept`: a connection, a signal,
      or a `KeyboardInterrupt`. */
  datatype Event = Connection(conn: Ipc.Conn) | Delivered(signal: Signal) | Interrupted

  /** Why the accept loop stopped, if it did. */
  datatype LoopEnd =
    | Serving               // every event was handled; still blocked in accept
    | Returned              // `KeyboardInterrupt`: the server returns normally
    | Crashed(exc: Ipc.Raised)
    | Terminated            // a signal ended the process

  datatype Session = Session(host: Host, replies: seq<Ipc.Dict>, end: LoopEnd)

  /** The connections among `events`, in the order they arrive. */
  function Accepted(events: seq<Event>): (conns: seq<Ipc.Conn>)
    ensures |conns| <= |events|
  {
    if events == [] then []
    else if events[0].Connection? then [events[0].conn] + Accepted(events[1..])
    else Accepted(events[1..])
  }

  /** An event the accept loop survives: a connection the server answers,
      or a SIGHUP while the handler that only logs it is installed. */
  predicate Passes(h: Host, e: Event) {
    || (e.Connection? && Ipc.ServeConnection(e.conn).Reply?)
    || (e == Delivered(SigHup) && h.handlersInstalled)
  }

  /** How an event the loop does not survive ends it: a raising connection
      with its exception, `KeyboardInterrupt` with a normal return, and a
      signal with the end of the process. */
  function EndFor(h: Host, e: Event): LoopEnd
    requires !Passes(h, e)
  {
    match e
    case Connection(conn) => Crashed(Ipc.ServeConnection(conn).exc)
    case Delivered(_) => Terminated
    case Interrupted => Returned
  }

  /** The position of the first event the loop does not survive, or the
      number of events when it survives them all. */
  function FirstStop(h: Host, events: seq<Event>): (k: nat)
    ensures k <= |events|
    ensures forall i :: 0 <= i < k ==> Passes(h, events[i])
    ensures k < |events| ==> !Passes(h, events[k])
  {
    if events == [] || !Passes(h, events[0]) then 0 else 1 + FirstStop(h, events[1..])
  }

  /** A session that ends exactly at the first event the loop does not
      survive, in the way that event ends it, having answered every
      connection before it; a session still serving survived every event. */
  predicate EndsAtFirstStop(h: Host, events: seq<Event>, r: Session) {
    var k := FirstStop(h, events);
    && (r.end.Serving? <==> k == |events|)
    && (k < |events| ==> r.end == EndFor(h, events[k]))
    && |r.replies| == |Accepted(events[..k])|
  }

  /** The accept loop of `start_ipc_server` over a sequence of events. The
      replies are those `Ipc.ServeConnection` gives the accepted connections,
      in order, as in `Ipc.ServeAll`; a crash happens at the first connection
      that raises. While serving, each connection is answered once and
      nothing about the host changes (not even for `stop_daemon`). Whenever
      the loop is left through its `finally` (a return, an escaping
      exception, or the `SystemExit` of the SIGTERM handler) the socket and
      its directory are removed. The run flag never goes from false to
      true. */
  function Serve(h: Host, events: seq<Event>): (r: Session)
    requires h.exited.None?
    ensures r.end.Serving? ==> r.host == h && |r.replies| == |Accepted(events)|
    ensures |r.replies| <= |Accepted(events)|
    ensures forall i :: 0 <= i < |r.replies| ==> Ipc.ServeConnection(Accepted(events)[i]) == Ipc.Reply(r.replies[i])
    ensures r.end.Crashed? ==>
      |r.replies| < |Accepted(events)| && Ipc.ServeConnection(Accepted(events)[|r.replies|]) == Ipc.Crash(r.end.exc)
    ensures r.end.Terminated? <==> r.host.exited.Some?
    ensures r.host.running ==> h.running
    ensures r.end.Returned? || r.end.Crashed? || (r.end.Terminated? && h.handlersInstalled) ==>
      !r.host.endpoint.socketFile && !r.host.endpoint.socketDir
    ensures r.end.Returned? || r.end.Crashed? ==> r.host.pidFile == h.pidFile && r.host.handlersInstalled == h.handlersInstalled
    ensures r.end.Terminated? && !h.handlersInstalled ==> r.host.pidFile == h.pidFile && r.host.exited.value.KilledBy?
    ensures r.host.handlersInstalled == h.handlersInstalled
    ensures r.end.Terminated? && h.handlersInstalled ==> r.host.pidFile.None? && r.host.exited == Some(Code(0))
    decreases |events|
  {
    if events == [] then
      Session(h, [], Serving)
    else
      match events[0]
      case Connection(conn) =>
        (match Ipc.ServeConnection(conn)
         case Reply(response) =>
           var rest := Serve(h, events[1..]);
           Session(rest.host, [response] + rest.replies, rest.end)
         case Crash(exc) =>
           Session(h.(endpoint := Ipc.Shutdown(h.endpoint)), [], Crashed(exc)))
      case Delivered(SigTerm) =>
        var t := OnSigterm(h);
        if h.handlersInstalled then Session(t.(endpoint := Ipc.Shutdown(t.endpoint)), [], Terminated)
        else Session(t, [], Terminated)
      case Delivered(SigHup) =>
        if h.handlersInstalled then Serve(h, events[1..])
        else Session(OnSighup(h), [], Terminated)
      case Interrupted =>
        Session(h.(endpoint := Ipc.Shutdown(h.endpoint)), [], Returned)
  }

  /** The loop stops at the first event it does not survive, in the way
      that event ends it, having answered every connection before it; it is
      still serving exactly when it survived every event. */
  lemma {:induction false} ServeEndsAtFirstStop(h: Host, events: seq<Event>)
    requires h.exited.None?
    ensures EndsAtFirstStop(h, events, Serve(h, events))
    decreases |events|
  {
    if events != [] && Passes(h, events[0]) {
      ServeEndsAtFirstStop(h, events[1..]);
      EndsAfterPass(h, events, Serve(h, events[1..]), Serve(h, events));
    }
  }

  /** A session that ends at the first stop of the events after a passing
      first event, with one more reply exactly when that event is a
      connection, ends at the first stop of all the events. */
  lemma EndsAfterPass(h: Host, events: seq<Event>, rest: Session, r: Session)
    requires |events| > 0 && Passes(h, events[0])
    requires EndsAtFirstStop(h, events[1..], rest)
    requires r.end == rest.end
    requires |r.replies| == |rest.replies| + (if events[0].Connection? then 1 else 0)
    ensures EndsAtFirstStop(h, events, r)
  {
    AcceptedAfterPass(h, events);
  }

  /** The connections before the first stop of `events`, when the first
      event passes: that event's connection, if it is one, followed by those
      before the first stop of the rest. */
  lemma AcceptedAfterPass(h: Host, events: seq<Event>)
    requires |events| > 0 && Passes(h, events[0])
    ensures var k := FirstStop(h, events);
            Accepted(events[..k])
              == (if events[0].Connection? then [events[0].conn] else []) + Accepted(events[1..][..k - 1])
  {
    var k := FirstStop(h, events);
    assert events[..k][0] == events[0];
    assert events[..k][1..] == events[1..][..k - 1];
  }

  /** A `stop_daemon` request is acknowledged and changes nothing: the
      session goes on exactly as if it had not arrived, one reply later. */
  lemma StopCommandKeepsServing(h: Host, events: seq<Event>)
    requires h.exited.None?
    ensures var stop := Connection(Ipc.Conn(Ipc.Decoded(Ipc.Object(map["command" := Ipc.Str("stop_daemon")])), true));
            var rest := Serve(h, events);
            Serve(h, [stop] + events)
              == Session(rest.host, [map["status" := Ipc.Str("Stop command received")]] + rest.replies, rest.end)
  {
    var stop := Connection(Ipc.Conn(Ipc.Decoded(Ipc.Object(map["command" := Ipc.Str("stop_daemon")])), true));
    assert ([stop] + events)[1..] == events;
  }

  /** A SIGHUP with the handler installed is invisible to the session. */
  lemma SighupIgnored(h: Host, events: seq<Event>)
    requires h.exited.None? && h.handlersInstalled
    ensures Serve(h, [Delivered(SigHup)] + events) == Serve(h, events)
  {
    assert ([Delivered(SigHup)] + events)[1..] == events;
  }

  // ---------------------------------------------------------------------
  // start_daemon
  // ---------------------------------------------------------------------

  /** The inputs of one daemon start: whether the `os.setsid()` of the
      session-leader test is refused (it raises `PermissionError` in a
      process that already leads its process group), the two fork outcomes, the pid the surviving process
      gets, whether the PID file can be written, whether a leftover socket
      can be removed, and the events reaching the accept loop. */
  datatype Launch = Launch(
    setsidRefused: bool,
    fork1: bool,
    fork2: bool,
    pid: nat,
    pidWritable: bool,
    staleRemovable: bool,
    events: seq<Event>)

  /** One run of `start_daemon`: the forking parents' exit statuses, the
      final state of the process that went on, and the replies it sent. */
  datatype DaemonRun = DaemonRun(parentExits: seq<int>, host: Host, replies: seq<Ipc.Dict>)

  /** What `start_daemon` does after its server call: a normal return leads
      to `_cleanup_pid_file` and exit status 0; an escaping exception skips
      the cleanup and ends the process with status 1. */
  function AfterServer(s: Session): (r: Host)
    requires s.end.Serving? ==> s.host.exited.None?
    ensures s.end.Returned? ==> r.pidFile.None? && r.exited == Some(Code(0))
    ensures s.end.Crashed? ==> r.pidFile == s.host.pidFile && r.exited == Some(Code(1))
    ensures s.end.Serving? || s.end.Terminated? ==> r == s.host
    ensures r.endpoint == s.host.endpoint
  {
    match s.end
    case Serving => s.host
    case Returned => CleanupPidFile(s.host).(exited := Some(Code(0)))
    case Crashed(_) => s.host.(exited := Some(Code(1)))
    case Terminated => s.host
  }

  /** The part of `start_daemon` from `start_ipc_server` on: set up the
      listener (a leftover socket that cannot be removed raises, status 1),
      serve, then clean up after a normal return. A process that ends with
      status 0 leaves neither PID file nor socket behind. */
  function RunServer(h: Host, staleRemovable: bool, events: seq<Event>): (r: DaemonRun)
    requires h.running && h.exited.None?
    ensures r.parentExits == []
    ensures r.host.handlersInstalled == h.handlersInstalled
    ensures r.host.exited == Some(Code(0)) ==> r.host.pidFile.None?
    ensures r.host.exited == Some(Code(0)) ==> !r.host.endpoint.socketFile && !r.host.endpoint.socketDir
    ensures r.host.exited.None? ==> r.host.running && r.host.endpoint.socketFile && r.host.pidFile == h.pidFile
    ensures r.host.exited == Some(Code(1)) ==> r.host.pidFile == h.pidFile
  {
    match Ipc.Listen(h.endpoint, staleRemovable)
    case None =>
      DaemonRun([], h.(exited := Some(Code(1))), [])
    case Some(ep) =>
      var s := Serve(h.(endpoint := ep), events);
      DaemonRun([], AfterServer(s), s.replies)
  }

  /** `start_daemon` from a freshly launched process, given the PID file and
      socket left on disk by earlier runs. The guard compares the pid with
      the value of `os.setsid()`, which is `None` whenever it returns, so the
      process always detaches unless that call raises, which ends it with
      status 1 before anything is written. Every forking parent exits with
      0; a failed fork ends the run with 1 before anything is written; any
      exit with status 0 leaves no PID file and no socket; every process
      that goes on to serve has forked twice. */
  function StartDaemon(pidFile: Option<string>, endpoint: Ipc.Endpoint, env: Launch): (r: DaemonRun)
    ensures forall i :: 0 <= i < |r.parentExits| ==> r.parentExits[i] == 0
    ensures env.setsidRefused || !(env.fork1 && env.fork2) ==>
      r.host.exited == Some(Code(1)) && r.replies == [] && r.host.pidFile == pidFile && r.host.endpoint == endpoint
    ensures env.setsidRefused ==> r.parentExits == []
    ensures r.host.exited == Some(Code(0)) ==> r.host.pidFile.None?
    ensures r.host.exited == Some(Code(0)) ==> !r.host.endpoint.socketFile && !r.host.endpoint.socketDir
    ensures r.host.exited.None? || |r.replies| > 0 ==> r.parentExits == [0, 0] && r.host.handlersInstalled
    ensures r.host.exited.None? ==> r.host.running && r.host.endpoint.socketFile
    ensures r.host.exited.None? ==> r.host.pidFile == Some(PyText.Decimal(env.pid))
  {
    var h0 := Launched(pidFile, endpoint);
    if env.setsidRefused then
      DaemonRun([], h0.(exited := Some(Code(1))), [])
    else
      var d := Daemonize(h0, env.fork1, env.fork2, env.pid, env.pidWritable);
      if !d.continues then
        DaemonRun(d.parentExits, d.host, [])
      else
        var s := RunServer(d.host, env.staleRemovable, env.events);
        DaemonRun(d.parentExits, s.host, s.replies)
  }

  /** A daemon that detached and is listening, when SIGTERM arrives: the
      flag is false, the PID file and socket are gone and the exit status
      is 0, whatever requests it answered before. */
  lemma SigtermEndsCleanly(pidFile: Option<string>, endpoint: Ipc.Endpoint, env: Launch, served: seq<Ipc.Conn>)
    requires !env.setsidRefused && env.fork1 && env.fork2 && env.pidWritable
    requires !endpoint.socketFile || env.staleRemovable
    requires forall i :: 0 <= i < |served| ==> Ipc.IsRequest(served[i])
    requires env.events == Connections(served) + [Delivered(SigTerm)]
    ensures var r := StartDaemon(pidFile, endpoint, env);
            && r.parentExits == [0, 0]
            && r.host.exited == Some(Code(0))
            && !r.host.running
            && r.host.pidFile.None?
            && !r.host.endpoint.socketFile
            && |r.replies| == |served|
  {
    var h0 := Launched(pidFile, endpoint);
    var d := Daemonize(h0, true, true, env.pid, true);
    assert d.continues && d.parentExits == [0, 0] && d.host.handlersInstalled;
    var h := d.host.(endpoint := Ipc.Endpoint(true, true));
    assert Ipc.Listen(d.host.endpoint, env.staleRemovable) == Some(Ipc.Endpoint(true, true));
    ServeUntilSigterm(h, served);
    var sess := Serve(h, env.events);
    assert RunServer(d.host, env.staleRemovable, env.events) == DaemonRun([], sess.host, sess.replies);
  }

  /** The accept loop of a process with its handlers installed, answering
      requests until SIGTERM arrives. */
  lemma ServeUntilSigterm(h: Host, served: seq<Ipc.Conn>)
    requires h.exited.None? && h.handlersInstalled
    requires forall i :: 0 <= i < |served| ==> Ipc.IsRequest(served[i])
    ensures var s := Serve(h, Connections(served) + [Delivered(SigTerm)]);
            && s.end == Terminated && s.host.exited == Some(Code(0))
            && !s.host.running && s.host.pidFile.None? && !s.host.endpoint.socketFile
            && |s.replies| == |served|
  {
    ServeConnectionsThen(h, served, [Delivered(SigTerm)]);
    var last := Serve(h, [Delivered(SigTerm)]);
    assert last.end == Terminated && last.replies == [] && !last.host.running;
  }

  /** The accept loop answering requests until a `KeyboardInterrupt`: the
      server returns normally after one reply per request, with the socket
      removed and the PID file and run flag as they were; whatever comes
      after the interrupt is never seen. Each reply is the dispatcher's
      answer to its request. */
  lemma ServeUntilInterrupt(h: Host, served: seq<Ipc.Conn>, later: seq<Event>)
    requires h.exited.None?
    requires forall i :: 0 <= i < |served| ==> served[i].peerOpen && served[i].frame.Decoded? && served[i].frame.doc.Object?
    ensures var s := Serve(h, Connections(served) + [Interrupted] + later);
            && s.end == Returned
            && |s.replies| == |served|
            && (forall i :: 0 <= i < |served| ==> s.replies[i] == Ipc.AgentCommandHandler(served[i].frame.doc.fields))
            && s.host.pidFile == h.pidFile && s.host.running == h.running
            && !s.host.endpoint.socketFile && !s.host.endpoint.socketDir
  {
    assert Connections(served) + [Interrupted] + later == Connections(served) + ([Interrupted] + later);
    ServeConnectionsThen(h, served, [Interrupted] + later);
  }

  /** A detached, listening daemon interrupted after any number of requests
      returns from its server, removes its PID file and exits with status
      0, leaving neither PID file nor socket. */
  lemma InterruptEndsCleanly(pidFile: Option<string>, endpoint: Ipc.Endpoint, env: Launch, served: seq<Ipc.Conn>, later: seq<Event>)
    requires !env.setsidRefused && env.fork1 && env.fork2 && env.pidWritable
    requires !endpoint.socketFile || env.staleRemovable
    requires forall i :: 0 <= i < |served| ==> Ipc.IsRequest(served[i])
    requires env.events == Connections(served) + [Interrupted] + later
    ensures var r := StartDaemon(pidFile, endpoint, env);
            && r.parentExits == [0, 0]
            && r.host.exited == Some(Code(0))
            && r.host.pidFile.None?
            && !r.host.endpoint.socketFile
            && |r.replies| == |served|
  {
    var h0 := Launched(pidFile, endpoint);
    var d := Daemonize(h0, true, true, env.pid, true);
    var h := d.host.(endpoint := Ipc.Endpoint(true, true));
    assert Ipc.Listen(d.host.endpoint, env.staleRemovable) == Some(Ipc.Endpoint(true, true));
    ServeUntilInterrupt(h, served, later);
    var sess := Serve(h, env.events);
    assert RunServer(d.host, env.staleRemovable, env.events) == DaemonRun([], AfterServer(sess), sess.replies);
  }

  function Connections(conns: seq<Ipc.Conn>): (events: seq<Event>)
    ensures |events| == |conns|
    ensures forall i :: 0 <= i < |conns| ==> events[i] == Connection(conns[i])
  {
    if conns == [] then [] else [Connection(conns[0])] + Connections(conns[1..])
  }

  /** Connections the dispatcher answers leave the host as it was: the
      session that follows them is the session without them, with one reply
      per connection in front. */
  lemma {:induction false} ServeConnectionsThen(h: Host, conns: seq<Ipc.Conn>, later: seq<Event>)
    requires h.exited.None?
    requires forall i :: 0 <= i < |conns| ==> conns[i].peerOpen && conns[i].frame.Decoded? && conns[i].frame.doc.Object?
    ensures var r := Serve(h, Connections(conns) + later);
            var rest := Serve(h, later);
            && r.host == rest.host && r.end == rest.end
            && |r.replies| == |conns| + |rest.replies|
            && r.replies[|conns|..] == rest.replies
            && forall i :: 0 <= i < |conns| ==> r.replies[i] == Ipc.AgentCommandHandler(conns[i].frame.doc.fields)
    decreases |conns|
  {
    if conns != [] {
      var evs := Connections(conns) + later;
      assert evs[0] == Connection(conns[0]);
      assert evs[1..] == Connections(conns[1..]) + later;
      ServeConnectionsThen(h, conns[1..], later);
    } else {
      assert Connections(conns) + later == later;
    }
  }

  /** A daemon whose first connection raises an exception the server does
      not catch: no reply, the socket is removed, the process exits with
      status 1 and its PID file, naming a process that no longer runs, is
      left behind. */
  lemma CrashLeavesPidFile(pidFile: Option<string>, endpoint: Ipc.Endpoint, env: Launch, exc: Ipc.Raised)
    requires !env.setsidRefused && env.fork1 && env.fork2 && env.pidWritable
    requires !endpoint.socketFile || env.staleRemovable
    requires |env.events| > 0 && env.events[0].Connection? && Ipc.ServeConnection(env.events[0].conn) == Ipc.Crash(exc)
    ensures var r := StartDaemon(pidFile, endpoint, env);
            && r.host.exited == Some(Code(1))
            && r.host.pidFile == Some(PyText.Decimal(env.pid))
            && !r.host.endpoint.socketFile
            && r.replies == []
  {
    var h0 := Launched(pidFile, endpoint);
    var d := Daemonize(h0, true, true, env.pid, true);
    assert d.continues && d.host.pidFile == Some(PyText.Decimal(env.pid));
    var h := d.host.(endpoint := Ipc.Endpoint(true, true));
    assert Ipc.Listen(d.host.endpoint, env.staleRemovable) == Some(Ipc.Endpoint(true, true));
    FirstConnectionCrashes(h, env.events, exc);
    var sess := Serve(h, env.events);
    assert RunServer(d.host, env.staleRemovable, env.events) == DaemonRun([], AfterServer(sess), []);
  }

  /** The accept loop whose first connection raises: no reply, the socket
      removed, nothing else changed. */
  lemma FirstConnectionCrashes(h: Host, events: seq<Event>, exc: Ipc.Raised)
    requires h.exited.None?
    requires |events| > 0 && events[0].Connection? && Ipc.ServeConnection(events[0].conn) == Ipc.Crash(exc)
    ensures Serve(h, events) == Session(h.(endpoint := Ipc.Shutdown(h.endpoint)), [], Crashed(exc))
  {
  }

  /** A payload that is valid JSON but not an object crashes the accept
      loop: the dispatcher's `.get` raises `AttributeError`, and the PID file
      is left behind. */
  lemma NonObjectPayloadLeavesPidFile(pidFile: Option<string>, endpoint: Ipc.Endpoint, env: Launch, v: Ipc.Value)
    requires !env.setsidRefused && env.fork1 && env.fork2 && env.pidWritable
    requires !endpoint.socketFile || env.staleRemovable
    requires |env.events| > 0 && env.events[0].Connection? && env.events[0].conn.frame == Ipc.Decoded(Ipc.NonObject(v))
    ensures var r := StartDaemon(pidFile, endpoint, env);
            && r.host.exited == Some(Code(1))
            && r.host.pidFile == Some(PyText.Decimal(env.pid))
            && !r.host.endpoint.socketFile
            && r.replies == []
  {
    CrashLeavesPidFile(pidFile, endpoint, env, Ipc.AttributeMissing("get"));
  }

  /** A client that connects and closes without sending anything ends the
      daemon: the error reply to the empty payload cannot be sent, the
      `BrokenPipeError` escapes, the process exits with status 1 and its PID
      file is left behind, although the run flag was never cleared. */
  lemma SilentClientLeavesPidFile(pidFile: Option<string>, endpoint: Ipc.Endpoint, env: Launch, reason: string)
    requires !env.setsidRefused && env.fork1 && env.fork2 && env.pidWritable
    requires !endpoint.socketFile || env.staleRemovable
    requires |env.events| > 0 && env.events[0] == Connection(Ipc.Conn(Ipc.Malformed(reason), false))
    ensures var r := StartDaemon(pidFile, endpoint, env);
            && r.host.exited == Some(Code(1))
            && r.host.running
            && r.host.pidFile == Some(PyText.Decimal(env.pid))
            && !r.host.endpoint.socketFile
            && r.replies == []
  {
    Ipc.SilentClientCrashes(reason);
    CrashLeavesPidFile(pidFile, endpoint, env, Ipc.BrokenPipe);
  }

  // ---------------------------------------------------------------------
  // run_agent_tasks
  // ---------------------------------------------------------------------

  /** The placeholder task loop. `flagReads` are the values `AGENT_RUNNING`
      has each time the loop condition is evaluated. The body runs exactly for
      the leading run of `true` reads; the loop ends at the first `false`
      read, or is still going when the reads run out. */
  method RunAgentTasks(flagReads: seq<bool>) returns (rounds: nat, stopped: bool)
    ensures rounds <= |flagReads|
    ensures forall i :: 0 <= i < rounds ==> flagReads[i]
    ensures stopped <==> rounds < |flagReads|
    ensures stopped ==> !flagReads[rounds]
  {
    rounds := 0;
    stopped := false;
    while rounds < |flagReads| && flagReads[rounds]
      invariant rounds <= |flagReads|
      invariant forall i :: 0 <= i < rounds ==> flagReads[i]
    {
      rounds := rounds + 1;
    }
    stopped := rounds < |flagReads|;
  }
}

/** The command-line front end: each subcommand becomes one fixed request
    to the daemon, or no request at all. Composed with the client and the
    daemon's dispatcher this shows what each subcommand can actually
    achieve; in particular `start` never starts anything. */
module Cli {
  import opened Base
  import PyText
  import Ipc
  import AgentCore

  datatype Subcommand =
    | Start
    | Stop
    | Status
    | ConfigGet(key: string)
    | ConfigSet(key: string, value: string)
    | ConfigShow

  /** The request a subcommand sends: a one-key dict naming the command for
      `start`, `stop` and `status`; nothing for the `config` group, which
      only prints placeholders. */
  function RequestFor(c: Subcommand): (r: Option<Ipc.Dict>)
    ensures r.Some? <==> c.Start? || c.Stop? || c.Status?
    ensures r.Some? ==> r.value.Keys == {"command"} && r.value["command"].Str?
    ensures c.Stop? ==> r.Some? && Ipc.Get(r.value, "command") == Ipc.Str("stop_daemon")
    ensures c.Start? || c.Status? ==> r.Some? && Ipc.IsKnownCommand(r.value["command"]) == c.Status?
  {
    match c
    case Start => Some(map["command" := Ipc.Str("start_daemon")])
    case Stop => Some(map["command" := Ipc.Str("stop_daemon")])
    case Status => Some(map["command" := Ipc.Str("status")])
    case ConfigGet(_) => None
    case ConfigSet(_, _) => None
    case ConfigShow => None
  }

  /** Running a subcommand: either the agent is never contacted, or one
      client call is made with the subcommand's request. */
  datatype Effect = NoContact | Contacted(call: Ipc.Call)

  function Invoke(c: Subcommand, env: Ipc.ClientEnv): (r: Effect)
    ensures r.NoContact? <==> RequestFor(c).None?
    ensures r.Contacted? ==> r.call == Ipc.SendCommand(RequestFor(c).value, env)
  {
    match RequestFor(c)
    case None => NoContact
    case Some(request) => Contacted(Ipc.SendCommand(request, env))
  }

  /** The exact requests of cli.py. */
  lemma Requests()
    ensures RequestFor(Start) == Some(map["command" := Ipc.Str("start_daemon")])
    ensures RequestFor(Stop) == Some(map["command" := Ipc.Str("stop_daemon")])
    ensures RequestFor(Status) == Some(map["command" := Ipc.Str("status")])
  {
  }

  /** `config get`, `config set` and `config show` never reach the agent. */
  lemma ConfigNeverContacts(c: Subcommand, env: Ipc.ClientEnv)
    requires c.ConfigGet? || c.ConfigSet? || c.ConfigShow?
    ensures Invoke(c, env) == NoContact
  {
  }

  /** `start` launches no daemon and signals no process. With the socket
      missing it is told the agent is not running; with the daemon answering
      it is told `start_daemon` is an unknown command. */
  lemma StartNeverLaunches(env: Ipc.ClientEnv)
    ensures Invoke(Start, env).Contacted? && Invoke(Start, env).call.signalled.None?
    ensures !env.socketExists ==>
      Invoke(Start, env).call.outcome == Ipc.Returned(Ipc.Object(map["error" := Ipc.Str("Agent not running or socket missing.")]))
    ensures env.socketExists && env.link == Ipc.DaemonAnswer(RequestFor(Start).value) ==>
      Invoke(Start, env).call.outcome == Ipc.Returned(Ipc.Object(map["error" := Ipc.Str("Unknown command: start_daemon")]))
  {
    var request := RequestFor(Start).value;
    assert Ipc.Get(request, "command") == Ipc.Str("start_daemon");
    assert "Unknown command: " + Ipc.Show(Ipc.Str("start_daemon")) == "Unknown command: start_daemon";
  }

  /** `status` against the running daemon gets its fixed status reply. */
  lemma StatusFromDaemon(env: Ipc.ClientEnv)
    requires env.socketExists && env.link == Ipc.DaemonAnswer(RequestFor(Status).value)
    ensures Invoke(Status, env) == Contacted(Ipc.Call(None, Ipc.Returned(Ipc.Object(
      map["status" := Ipc.Str("Agent is running"), "uptime" := Ipc.Str("X hours")]))))
  {
  }

  /** `stop` against the running daemon only gets an acknowledgement; the
      daemon's accept loop carries on unchanged (see
      `AgentCore.StopCommandKeepsServing`). */
  lemma StopOverSocketOnlyAcknowledges(env: Ipc.ClientEnv)
    requires env.socketExists && env.link == Ipc.DaemonAnswer(RequestFor(Stop).value)
    ensures Invoke(Stop, env) == Contacted(Ipc.Call(None, Ipc.Returned(Ipc.Object(
      map["status" := Ipc.Str("Stop command received")]))))
  {
  }

  /** The PID file the daemon writes is read back by `stop`'s fallback as
      the daemon's pid: with the socket gone, SIGTERM goes to exactly the
      process that recorded itself. */
  lemma StopSignalsRecordedDaemon(h: AgentCore.Host, pid: nat, env: Ipc.ClientEnv)
    requires pid < 0x8000_0000
    requires env.pidFile == Ipc.Holds(AgentCore.WritePidFile(h, pid).pidFile.value)
    requires !env.socketExists
    ensures Invoke(Stop, env).call.signalled == Some(pid as int)
  {
    var request := RequestFor(Stop).value;
    Ipc.FallbackTaken(request, env);
    Ipc.PidFileSignals(env.pidFile, env.killError, pid);
  }
}

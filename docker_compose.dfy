/** The `docker_compose` management command.

    A parsed subcommand becomes exactly one docker-compose argument vector.
    The command writes one announcement line, runs that vector once as an
    external process, and turns the process outcome into either success
    output or a CommandError. The process itself is not modelled: its
    outcome is a `RunResult` given to the operations as a parameter. */
module DockerCompose {
  import opened Wrappers

  const Tool := "docker-compose"

  // ---------------------------------------------------------------------
  // Parsed options (add_arguments) and dispatch (handle)
  // ---------------------------------------------------------------------

  /** The options namespace that argparse hands to `handle`. Each handler
      reads only the keys of its own subparser. */
  datatype Options = Options(
    action: string,
    logs: bool,
    volumes: bool,
    follow: bool,
    service: Option<string>)

  /** One parsed subcommand with the options its handler reads. */
  datatype Action =
    | Up(logs: bool)
    | Down(volumes: bool)
    | Restart
    | Logs(follow: bool, service: Option<string>)
    | Status

  /** The subcommand names registered with the subparser. */
  const Subcommands: set<string> := {"up", "down", "restart", "logs", "status"}

  /** The name under which a subcommand is registered. */
  function Name(a: Action): string
  {
    match a
    case Up(_) => "up"
    case Down(_) => "down"
    case Restart => "restart"
    case Logs(_, _) => "logs"
    case Status => "status"
  }

  /** The docker-compose subcommand each action runs. */
  function Verb(a: Action): string
  {
    match a
    case Up(_) => "up"
    case Down(_) => "down"
    case Restart => "restart"
    case Logs(_, _) => "logs"
    case Status => "ps"
  }

  /** argparse's `store_true`: a given flag stores True, an absent one
      leaves the declared default in place. */
  function StoreTrue(given: bool, default: bool): bool
  {
    if given then true else default
  }

  /** The namespace built from what the user typed: subcommand name,
      which of `--logs`, `--volumes`, `--follow` appeared, and the optional
      positional service. `--logs` and `--volumes` default to False,
      `--follow` is declared with `default=True`. */
  function ParsedOptions(action: string, logsGiven: bool, volumesGiven: bool,
                         followGiven: bool, service: Option<string>): (o: Options)
    ensures o.action == action && o.service == service
    ensures o.logs == logsGiven && o.volumes == volumesGiven
    ensures o.follow
  {
    Options(action, StoreTrue(logsGiven, false), StoreTrue(volumesGiven, false),
            StoreTrue(followGiven, true), service)
  }

  /** The if/elif chain of `handle`: picks the handler named by `action`
      and the options it reads. Any other name selects no handler. */
  function Select(o: Options): (r: Option<Action>)
    ensures r.Some? <==> o.action in Subcommands
    ensures r.Some? ==> Name(r.value) == o.action
    ensures r == Some(Up(o.logs)) || r == Some(Down(o.volumes)) || r == Some(Restart)
         || r == Some(Logs(o.follow, o.service)) || r == Some(Status) || r == None
  {
    if o.action == "up" then Some(Up(o.logs))
    else if o.action == "down" then Some(Down(o.volumes))
    else if o.action == "restart" then Some(Restart)
    else if o.action == "logs" then Some(Logs(o.follow, o.service))
    else if o.action == "status" then Some(Status)
    else None
  }

  /** Actions that the parser can produce: `--follow` is always True. */
  predicate Parsed(a: Action)
  {
    a.Logs? ==> a.follow
  }

  /** A falsy service (`""`) is the same as no service. */
  function Canon(a: Action): Action
  {
    match a
    case Logs(follow, service) => Logs(follow, if Truthy(service) then service else None)
    case _ => a
  }

  // ---------------------------------------------------------------------
  // Argument vectors
  // ---------------------------------------------------------------------

  /** The argument vector of each subcommand, as a table. */
  function Argv(a: Action): (v: seq<string>)
    ensures 2 <= |v| <= 4
    ensures v[0] == Tool && v[1] == Verb(a)
  {
    match a
    case Up(logs) =>
      if logs then [Tool, "up"] else [Tool, "up", "-d"]
    case Down(volumes) =>
      if volumes then [Tool, "down", "-v"] else [Tool, "down"]
    case Restart =>
      [Tool, "restart"]
    case Logs(follow, service) =>
      if follow && Truthy(service) then [Tool, "logs", "-f", service.value]
      else if follow then [Tool, "logs", "-f"]
      else if Truthy(service) then [Tool, "logs", service.value]
      else [Tool, "logs"]
    case Status =>
      [Tool, "ps"]
  }

  /** `up` runs detached (`-d`) exactly when `--logs` was not given. */
  lemma UpDetachedUnlessLogs(logs: bool)
    ensures |Argv(Up(logs))| == 2 + (if logs then 0 else 1)
    ensures "-d" in Argv(Up(logs)) <==> !logs
    ensures !logs ==> Argv(Up(logs)) == [Tool, "up", "-d"]
  {
  }

  /** `down` is `docker-compose down` with `-v` appended exactly when
      `--volumes` was given, and nothing else differs. */
  lemma DownVolumesFlag(volumes: bool)
    ensures Argv(Down(volumes)) == [Tool, "down"] + (if volumes then ["-v"] else [])
    ensures "-v" in Argv(Down(volumes)) <==> volumes
  {
  }

  /** `logs` is `docker-compose logs`, then `-f` when following, then the
      service when one is given; the service always comes last. */
  lemma LogsLayout(follow: bool, service: Option<string>)
    ensures Argv(Logs(follow, service))
         == [Tool, "logs"] + (if follow then ["-f"] else [])
            + (if Truthy(service) then [service.value] else [])
    ensures Truthy(service) ==> Argv(Logs(follow, service))[|Argv(Logs(follow, service))| - 1] == service.value
    ensures follow ==> Argv(Logs(follow, service))[2] == "-f"
  {
  }

  /** Because `--follow` is `store_true` with `default=True`, every `logs`
      the parser produces follows, typed flag or not. */
  lemma ParsedLogsAlwaysFollow(followGiven: bool, service: Option<string>)
    ensures Select(ParsedOptions("logs", false, false, followGiven, service))
         == Some(Logs(true, service))
    ensures Argv(Logs(true, service))[2] == "-f"
  {
  }

  /** Reads an argument vector back as the action that produces it. */
  function Decode(v: seq<string>): (r: Option<Action>)
    ensures r.Some? ==> Parsed(r.value) && Canon(r.value) == r.value
  {
    if |v| < 2 || v[0] != Tool then None
    else if v[1] == "up" then
      if |v| == 2 then Some(Up(true))
      else if |v| == 3 && v[2] == "-d" then Some(Up(false))
      else None
    else if v[1] == "down" then
      if |v| == 2 then Some(Down(false))
      else if |v| == 3 && v[2] == "-v" then Some(Down(true))
      else None
    else if v[1] == "restart" then
      if |v| == 2 then Some(Restart) else None
    else if v[1] == "ps" then
      if |v| == 2 then Some(Status) else None
    else if v[1] == "logs" && |v| >= 3 && v[2] == "-f" then
      if |v| == 3 then Some(Logs(true, None))
      else if |v| == 4 && v[3] != "" then Some(Logs(true, Some(v[3])))
      else None
    else None
  }

  /** Every parsed action's vector reads back as that action. */
  lemma DecodeArgv(a: Action)
    requires Parsed(a)
    ensures Decode(Argv(a)) == Some(Canon(a))
  {
  }

  /** Every vector that reads back as an action is that action's vector. */
  lemma ArgvDecode(v: seq<string>, a: Action)
    requires Decode(v) == Some(a)
    ensures Argv(a) == v
  {
  }

  /** Distinct parsed actions never run the same docker-compose command. */
  lemma ArgvInjective(a: Action, b: Action)
    requires Parsed(a) && Parsed(b)
    requires Argv(a) == Argv(b)
    ensures Canon(a) == Canon(b)
  {
    DecodeArgv(a);
    DecodeArgv(b);
  }

  // ---------------------------------------------------------------------
  // Console lines and the outcome of one run (_run_command)
  // ---------------------------------------------------------------------

  /** What the external `subprocess.run(cmd, check=True)` did. */
  datatype RunResult = Exited(returncode: int) | NotFound

  /** The exception behind a CommandError. */
  datatype Cause =
    | ProcessFailed(returncode: int, cmd: seq<string>)
    | ExecutableMissing

  /** `Ok` carries the lines `_run_command` wrote; `CommandError` is raised. */
  datatype Outcome = Ok(lines: seq<string>) | CommandError(cause: Cause)

  const FailedPrefix := "❌ Docker Compose failed: "
  /** The not-found text, kept in pieces so that proofs can see the
      phrase "docker-compose not found" inside it. */
  const NotFoundMessage := "❌ " + "docker-compose not found" + ". Make sure Docker is installed."

  // ---------------------------------------------------------------------
  // Substrings: Python's `t in s` on strings
  // ---------------------------------------------------------------------

  /** `t[k..]` occurs in `s` at position `i + k`. */
  predicate MatchFrom(s: string, t: string, i: nat, k: nat)
    decreases |t| - k
  {
    k >= |t| || (i + k < |s| && s[i + k] == t[k] && MatchFrom(s, t, i, k + 1))
  }

  predicate Contains(s: string, t: string)
  {
    exists i | 0 <= i <= |s| :: MatchFrom(s, t, i, 0)
  }

  lemma {:induction false} MatchSelf(s: string, k: nat)
    ensures MatchFrom(s, s, 0, k)
    decreases |s| - k
  {
    if k < |s| { MatchSelf(s, k + 1); }
  }

  /** A match stays a match when text is appended. */
  lemma {:induction false} MatchExtend(p: string, q: string, t: string, i: nat, k: nat)
    requires MatchFrom(p, t, i, k)
    ensures MatchFrom(p + q, t, i, k)
    decreases |t| - k
  {
    if k < |t| { MatchExtend(p, q, t, i, k + 1); }
  }

  /** A match moves right by `|p|` when `p` is prepended. */
  lemma {:induction false} MatchShift(p: string, q: string, t: string, i: nat, k: nat)
    requires MatchFrom(q, t, i, k)
    ensures MatchFrom(p + q, t, |p| + i, k)
    decreases |t| - k
  {
    if k < |t| { MatchShift(p, q, t, i, k + 1); }
  }

  lemma ContainsMiddle(p: string, t: string, q: string)
    ensures MatchFrom(p + t + q, t, |p|, 0)
    ensures Contains(p + t + q, t)
  {
    MatchSelf(t, 0);
    MatchExtend(t, q, t, 0, 0);
    MatchShift(p, t + q, t, 0, 0);
    assert p + (t + q) == p + t + q;
    assert MatchFrom(p + t + q, t, |p|, 0);
  }

  /** The text of the CommandError. `detail` is the text of the
      CalledProcessError, which Python's standard library renders. */
  function ErrorMessage(c: Cause, detail: string): (m: string)
    ensures c.ProcessFailed? ==> FailedPrefix <= m && m[|FailedPrefix|..] == detail
    ensures c.ExecutableMissing? ==> m == NotFoundMessage
  {
    match c
    case ProcessFailed(_, _) => FailedPrefix + detail
    case ExecutableMissing => NotFoundMessage
  }

  /** The two kinds of CommandError can be told apart by their text alone. */
  lemma ErrorKindsDistinct(code: int, cmd: seq<string>, detail: string)
    ensures ErrorMessage(ProcessFailed(code, cmd), detail) != ErrorMessage(ExecutableMissing, detail)
    ensures !(FailedPrefix <= NotFoundMessage)
  {
    assert FailedPrefix[2] == 'D' && NotFoundMessage[2] == 'd';
  }

  /** `_run_command`: run `cmd`, then write the success line on a zero exit
      (only when a non-empty one was supplied), or raise. */
  function Run(cmd: seq<string>, r: RunResult, successMsg: Option<string>): (o: Outcome)
    ensures o.Ok? <==> r == Exited(0)
    ensures o.Ok? ==> (|o.lines| == 1 <==> Truthy(successMsg))
    ensures o.Ok? && |o.lines| == 1 ==> o.lines[0] == successMsg.value
    ensures o.Ok? ==> |o.lines| <= 1
    ensures r.NotFound? ==> o.cause == ExecutableMissing
    ensures r.Exited? && r.returncode != 0 ==> o.cause == ProcessFailed(r.returncode, cmd)
  {
    match r
    case Exited(code) =>
      if code == 0 then Ok(if Truthy(successMsg) then [successMsg.value] else [])
      else CommandError(ProcessFailed(code, cmd))
    case NotFound =>
      CommandError(ExecutableMissing)
  }

  /** The lines an outcome leaves on stdout. */
  function Written(o: Outcome): seq<string>
  {
    if o.Ok? then o.lines else []
  }

  /** The line each handler writes before running its command. */
  function Announcement(a: Action): (line: string)
    ensures a.Logs? && Truthy(a.service) ==> Contains(line, a.service.value)
  {
    match a
    case Up(logs) =>
      if logs then "🐳 Starting Docker Compose with logs..."
      else "🐳 Starting Docker Compose in detached mode..."
    case Down(volumes) =>
      if volumes then "🛑 Stopping Docker Compose and removing volumes..."
      else "🛑 Stopping Docker Compose..."
    case Restart =>
      "🔄 Restarting Docker Compose services..."
    case Logs(_, service) =>
      if Truthy(service) then
        ContainsMiddle("📋 Viewing logs for ", service.value, "...");
        "📋 Viewing logs for " + service.value + "..."
      else "📋 Viewing Docker Compose logs..."
    case Status =>
      "📊 Docker Compose service status:"
  }

  /** The success message each handler passes to `_run_command`. */
  function SuccessMessage(a: Action): (m: Option<string>)
    ensures m.Some? <==> !(a.Logs? || a.Status?)
    ensures m.Some? ==> Truthy(m)
  {
    match a
    case Up(_) => Some("✅ Docker Compose started successfully!")
    case Down(_) => Some("✅ Docker Compose stopped successfully!")
    case Restart => Some("✅ Docker Compose restarted successfully!")
    case Logs(_, _) => None
    case Status => None
  }

  /** The whole effect of one handler: its outcome and its stdout lines. */
  function Dispatch(a: Action, r: RunResult): Outcome
  {
    Run(Argv(a), r, SuccessMessage(a))
  }

  function Transcript(a: Action, r: RunResult): seq<string>
  {
    [Announcement(a)] + Written(Dispatch(a, r))
  }

  /** A success line is written exactly on a zero exit of a subcommand that
      supplies one; `logs` and `status` never write one. */
  lemma SuccessLineIff(a: Action, r: RunResult)
    ensures |Transcript(a, r)| == 2 <==> r == Exited(0) && !(a.Logs? || a.Status?)
    ensures |Transcript(a, r)| == 2 ==> Transcript(a, r)[1] == SuccessMessage(a).value
    ensures Transcript(a, r)[0] == Announcement(a)
  {
  }

  /** A failed or missing process raises, and writes only the announcement. */
  lemma FailureWritesNoSuccess(a: Action, r: RunResult)
    requires r != Exited(0)
    ensures Dispatch(a, r).CommandError?
    ensures Transcript(a, r) == [Announcement(a)]
    ensures r.NotFound? ==> Dispatch(a, r).cause == ExecutableMissing
    ensures r.Exited? ==> Dispatch(a, r).cause == ProcessFailed(r.returncode, Argv(a))
  {
  }

  // ---------------------------------------------------------------------
  // The command object
  // ---------------------------------------------------------------------

  /** The management command. `stdout` holds the lines written to
      `self.stdout`; `invoked` the argument vectors handed to the external
      process, in call order. */
  class Command {
    var stdout: seq<string>
    var invoked: seq<seq<string>>

    constructor ()
      ensures stdout == [] && invoked == []
    {
      stdout := [];
      invoked := [];
    }

    method Write(line: string)
      modifies this
      ensures stdout == old(stdout) + [line]
      ensures invoked == old(invoked)
    {
      stdout := stdout + [line];
    }

    method RunCommand(cmd: seq<string>, successMsg: Option<string>, r: RunResult)
      returns (o: Outcome)
      modifies this
      ensures o == Run(cmd, r, successMsg)
      ensures invoked == old(invoked) + [cmd]
      ensures stdout == old(stdout) + Written(o)
    {
      invoked := invoked + [cmd];
      match r
      case Exited(code) =>
        if code == 0 {
          if successMsg.Some? && successMsg.value != "" {
            Write(successMsg.value);
            o := Ok([successMsg.value]);
          } else {
            o := Ok([]);
          }
        } else {
          o := CommandError(ProcessFailed(code, cmd));
        }
      case NotFound =>
        o := CommandError(ExecutableMissing);
    }

    method HandleUp(logs: bool, r: RunResult) returns (o: Outcome)
      modifies this
      ensures o == Dispatch(Up(logs), r)
      ensures invoked == old(invoked) + [Argv(Up(logs))]
      ensures stdout == old(stdout) + Transcript(Up(logs), r)
    {
      var cmd;
      if logs {
        cmd := [Tool, "up"];
        Write("🐳 Starting Docker Compose with logs...");
      } else {
        cmd := [Tool, "up", "-d"];
        Write("🐳 Starting Docker Compose in detached mode...");
      }
      o := RunCommand(cmd, Some("✅ Docker Compose started successfully!"), r);
    }

    method HandleDown(volumes: bool, r: RunResult) returns (o: Outcome)
      modifies this
      ensures o == Dispatch(Down(volumes), r)
      ensures invoked == old(invoked) + [Argv(Down(volumes))]
      ensures stdout == old(stdout) + Transcript(Down(volumes), r)
    {
      var cmd := [Tool, "down"];
      if volumes {
        cmd := cmd + ["-v"];
        assert cmd == [Tool, "down", "-v"];
        Write("🛑 Stopping Docker Compose and removing volumes...");
      } else {
        Write("🛑 Stopping Docker Compose...");
      }
      o := RunCommand(cmd, Some("✅ Docker Compose stopped successfully!"), r);
    }

    method HandleRestart(r: RunResult) returns (o: Outcome)
      modifies this
      ensures o == Dispatch(Restart, r)
      ensures invoked == old(invoked) + [Argv(Restart)]
      ensures stdout == old(stdout) + Transcript(Restart, r)
    {
      Write("🔄 Restarting Docker Compose services...");
      o := RunCommand([Tool, "restart"], Some("✅ Docker Compose restarted successfully!"), r);
    }

    method HandleLogs(follow: bool, service: Option<string>, r: RunResult) returns (o: Outcome)
      modifies this
      ensures o == Dispatch(Logs(follow, service), r)
      ensures invoked == old(invoked) + [Argv(Logs(follow, service))]
      ensures stdout == old(stdout) + Transcript(Logs(follow, service), r)
    {
      var cmd := [Tool, "logs"];
      if follow {
        cmd := cmd + ["-f"];
      }
      if service.Some? && service.value != "" {
        cmd := cmd + [service.value];
        Write("📋 Viewing logs for " + service.value + "...");
      } else {
        Write("📋 Viewing Docker Compose logs...");
      }
      assert cmd == Argv(Logs(follow, service)) by { LogsLayout(follow, service); }
      o := RunCommand(cmd, None, r);
    }

    method HandleStatus(r: RunResult) returns (o: Outcome)
      modifies this
      ensures o == Dispatch(Status, r)
      ensures invoked == old(invoked) + [Argv(Status)]
      ensures stdout == old(stdout) + Transcript(Status, r)
    {
      Write("📊 Docker Compose service status:");
      o := RunCommand([Tool, "ps"], None, r);
    }

    /** `handle`: run the handler the options select; an unknown action
        name runs nothing and writes nothing. */
    method Handle(opts: Options, r: RunResult) returns (o: Outcome)
      modifies this
      ensures Select(opts).None? ==> o == Ok([]) && stdout == old(stdout) && invoked == old(invoked)
      ensures Select(opts).Some? ==>
                o == Dispatch(Select(opts).value, r)
                && invoked == old(invoked) + [Argv(Select(opts).value)]
                && stdout == old(stdout) + Transcript(Select(opts).value, r)
    {
      if opts.action == "up" {
        o := HandleUp(opts.logs, r);
      } else if opts.action == "down" {
        o := HandleDown(opts.volumes, r);
      } else if opts.action == "restart" {
        o := HandleRestart(r);
      } else if opts.action == "logs" {
        o := HandleLogs(opts.follow, opts.service, r);
      } else if opts.action == "status" {
        o := HandleStatus(r);
      } else {
        o := Ok([]);
      }
    }
  }

  /** The argument vectors the unit tests expect to be handed to the
      process. */
  lemma UnitTestVectors()
    ensures Argv(Up(false)) == ["docker-compose", "up", "-d"]
    ensures Argv(Up(true)) == ["docker-compose", "up"]
    ensures Argv(Down(false)) == ["docker-compose", "down"]
    ensures Argv(Down(true)) == ["docker-compose", "down", "-v"]
    ensures Argv(Restart) == ["docker-compose", "restart"]
    ensures Argv(Logs(true, None)) == ["docker-compose", "logs", "-f"]
    ensures Argv(Logs(true, Some("web"))) == ["docker-compose", "logs", "-f", "web"]
    ensures Argv(Status) == ["docker-compose", "ps"]
  {
  }

  /** Both failure kinds the unit tests provoke raise a CommandError, and the
      not-found text names the missing executable. */
  lemma UnitTestErrors()
    ensures Run(["fail"], Exited(1), None).CommandError?
    ensures Run(["missing"], NotFound, None) == CommandError(ExecutableMissing)
    ensures Contains(ErrorMessage(ExecutableMissing, ""), "docker-compose not found")
  {
    ContainsMiddle("❌ ", "docker-compose not found", ". Make sure Docker is installed.");
  }
}

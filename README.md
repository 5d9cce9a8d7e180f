# Docker Compose management command and test shortcut, modelled in Dafny

This project models the two pieces of deterministic argument-vector logic in
the django_sentinel repository.

1. The `docker_compose` management command (module `DockerCompose`). It has
   five subcommands: `up [--logs]`, `down [--volumes]`, `restart`,
   `logs [service] [--follow]` and `status`. `handle` picks one handler. The
   handler writes one announcement line to stdout and builds one
   `docker-compose` argument vector. `_run_command` runs that vector once.
   A zero exit writes the success message, if the handler supplied a
   non-empty one. A non-zero exit raises a CommandError starting
   "❌ Docker Compose failed: ". A missing executable raises the distinct
   CommandError "❌ docker-compose not found. Make sure Docker is installed."
2. The test shortcut of `manage.py` (module `Manage`). `manage.py test …`
   becomes a `pytest` argument vector. `unit` and `e2e` expand to their test
   directories. Any other argument passes through verbatim. A bare `test`
   runs `pydj_auth/tests`. Every other invocation falls through to Django's
   `main()`, which is `None` in the model.

The argument vectors are pure functions: `DockerCompose.Argv`, written as the
table of vectors, and `Manage.PytestArgs`. The command object is a class,
`DockerCompose.Command`. Its `stdout` field is the sequence of lines written
to `self.stdout`. Its `invoked` field is the sequence of vectors handed to
the external process. `HandleDown` and `HandleLogs` build their vector by
appending to a local list, as `_handle_down` and `_handle_logs` do.
`HandleUp`, `HandleRestart` and `HandleStatus` pick literal lists, as their
Python counterparts do. Each handler is proved to produce `Argv` of its
action. `DockerCompose.Decode` reads a vector back into its action. The two
round-trip lemmas prove that two parsed subcommands with the same
docker-compose command are the same action, up to an empty service
(`Canon`, `ArgvInjective`).

The external process is a parameter, `RunResult = Exited(returncode) |
NotFound`. It is what `subprocess.run(cmd, check=True)` did for this call.

Three facts about the code shape the model:
- The success messages are "✅ Docker Compose started successfully!",
  "✅ Docker Compose stopped successfully!" and "✅ Docker Compose restarted
  successfully!".
- `logs` with `follow` false is representable, because the handler tests
  `options["follow"]`. The parser never produces it, because `--follow` is
  `store_true` with `default=True` (`ParsedOptions`, `ParsedLogsAlwaysFollow`).
  With `follow` false, `Argv(Logs(false, Some("-f")))` would equal
  `Argv(Logs(true, None))`. That is why `ArgvInjective` requires `Parsed`.
- The handlers test `options["service"]` and `success_msg` by Python
  truthiness, so an empty string counts as absent (`Wrappers.Truthy`).
  `Canon` identifies `Some("")` with `None` for `logs`: `logs ''` and a bare
  `logs` run the same command.

The unit test `test_handle_status` calls `_handle_status()` with no
argument. The code declares an `options` parameter there. The model follows
the code's behaviour: the options are ignored.

## Model

| member | source | states |
|---|---|---|
| `DockerCompose.ParsedOptions` | pydj_auth/management/commands/docker_compose.py:44-76 | `--logs` and `--volumes` are stored as given (default False); `follow` is True whether or not `--follow`/`-f` was typed; action and service are kept |
| `DockerCompose.Select` | pydj_auth/management/commands/docker_compose.py:81-94 | a handler is selected exactly when the action is one of the five registered names, the selected action has that name, and it carries the options of its own subparser; any other name selects nothing |
| `DockerCompose.Argv` | pydj_auth/management/commands/docker_compose.py:96-146 | every vector starts with `docker-compose`, has length 2 to 4, and its second element is the action's verb (up, down, restart, logs, ps) |
| `DockerCompose.UpDetachedUnlessLogs` | pydj_auth/management/commands/docker_compose.py:98-103 | `-d` appears iff `--logs` is false; the default is exactly `["docker-compose","up","-d"]` |
| `DockerCompose.DownVolumesFlag` | pydj_auth/management/commands/docker_compose.py:109-111 | `down` is `["docker-compose","down"]` with `-v` appended iff volumes, nothing else differs |
| `DockerCompose.LogsLayout` | pydj_auth/management/commands/docker_compose.py:129-135 | the table equals the append sequence: `logs`, then `-f` iff follow, then the service iff it is truthy; the service is last and `-f` is third |
| `DockerCompose.ParsedLogsAlwaysFollow` | pydj_auth/management/commands/docker_compose.py:65-71 | a parsed `logs` always has follow true, so its vector always has `-f` |
| `DockerCompose.Decode` | pydj_auth/management/commands/docker_compose.py:96-146 | whatever it reads back is a parsed, canonical action |
| `DockerCompose.DecodeArgv` | pydj_auth/management/commands/docker_compose.py:96-146 | every parsed action's vector reads back as that action (with an empty service as none) |
| `DockerCompose.ArgvDecode` | pydj_auth/management/commands/docker_compose.py:96-146 | every vector that reads back as an action is exactly that action's vector |
| `DockerCompose.ArgvInjective` | pydj_auth/management/commands/docker_compose.py:96-146 | two parsed actions with the same vector are the same action up to an empty service (`Canon`): `logs ''` and `logs` coincide, nothing else does |
| `DockerCompose.Run` | pydj_auth/management/commands/docker_compose.py:148-161 | success iff exit code 0; on success the only line written is the success message, present iff non-empty; non-zero exit gives a ProcessFailed error with that code and command; a missing executable gives ExecutableMissing |
| `DockerCompose.ErrorMessage` | pydj_auth/management/commands/docker_compose.py:157-161 | a failed run's message is "❌ Docker Compose failed: " followed by the error's text; a missing executable's message is the fixed not-found text |
| `DockerCompose.ErrorKindsDistinct` | pydj_auth/management/commands/docker_compose.py:157-161 | for every exit code, command and error text, the failure message differs from the not-found message, and no not-found message starts like a failure message |
| `DockerCompose.Announcement` | pydj_auth/management/commands/docker_compose.py:98-145 | the line each handler writes before running (the texts at :100, :103, :112-115, :121, :136-139 and :145); a `logs` line for a truthy service contains that service's name |
| `DockerCompose.SuccessMessage` | pydj_auth/management/commands/docker_compose.py:105-146 | the message each handler passes to `_run_command` (:105, :117, :124): present exactly for `up`, `down` and `restart`, never for `logs` (:141) or `status` (:146), and never empty |
| `DockerCompose.Command.Write` | pydj_auth/management/commands/docker_compose.py:100-156 | `self.stdout.write`: appends exactly one line and does not touch the invocations |
| `DockerCompose.SuccessLineIff` | pydj_auth/management/commands/docker_compose.py:153-156 | a handler writes a second line iff the exit is 0 and it is not `logs` or `status`; that line is its success message; the first line is always its announcement |
| `DockerCompose.FailureWritesNoSuccess` | pydj_auth/management/commands/docker_compose.py:152-161 | a non-zero exit or missing executable raises the matching error and writes only the announcement |
| `DockerCompose.Command.RunCommand` | pydj_auth/management/commands/docker_compose.py:148-161 | records one invocation of `cmd`, returns `Run`'s outcome, and appends exactly the lines that outcome wrote |
| `DockerCompose.Command.HandleUp` | pydj_auth/management/commands/docker_compose.py:96-105 | invokes `Argv(Up(logs))` once and writes the announcement then the outcome's lines |
| `DockerCompose.Command.HandleDown` | pydj_auth/management/commands/docker_compose.py:107-117 | building the vector by appending `-v` gives `Argv(Down(volumes))`; writes announcement then outcome lines |
| `DockerCompose.Command.HandleRestart` | pydj_auth/management/commands/docker_compose.py:119-125 | invokes `Argv(Restart)` once with the restart success message |
| `DockerCompose.Command.HandleLogs` | pydj_auth/management/commands/docker_compose.py:127-141 | appending `-f` and the service gives `Argv(Logs(follow, service))`; no success message |
| `DockerCompose.Command.HandleStatus` | pydj_auth/management/commands/docker_compose.py:143-146 | invokes `["docker-compose","ps"]` once with no success message |
| `DockerCompose.Command.Handle` | pydj_auth/management/commands/docker_compose.py:81-94 | runs the selected handler's whole effect; an unknown action changes nothing |
| `DockerCompose.UnitTestVectors` | pydj_auth/tests/unit/test_docker_compose_unit.py:18-118 | the eight argument vectors the unit tests expect the handlers to run |
| `DockerCompose.UnitTestErrors` | pydj_auth/tests/unit/test_docker_compose_unit.py:121-145 | a non-zero exit and a missing executable both raise a CommandError, and the not-found text contains "docker-compose not found" |
| `Manage.From` | manage.py:27-33 | Python's `argv[k:]`: empty past the end, otherwise the elements from `k` on |
| `Manage.PytestArgs` | manage.py:22-35 | rewrites iff `argv[1] == "test"`; the result starts with `pytest`, has length 2 for a bare `test` and `len(argv) - 1` otherwise, and ends with `argv[3:]` |
| `Manage.UnitShortcut` | manage.py:26-27 | `test unit rest` maps to `["pytest","pydj_auth/tests/unit"] + rest` |
| `Manage.E2eShortcut` | manage.py:28-29 | `test e2e rest` maps to `["pytest","pydj_auth/tests/e2e"] + rest` |
| `Manage.PassThrough` | manage.py:30-31 | `test x rest`, x neither `unit` nor `e2e`, maps to `["pytest", x] + rest` verbatim |
| `Manage.BareTest` | manage.py:32-33 | a bare `test` maps to exactly `["pytest","pydj_auth/tests"]` |
| `Manage.UnitIsAlias` | manage.py:26-27 | `test unit rest` gives the same vector as `test pydj_auth/tests/unit rest` |
| `Manage.E2eIsAlias` | manage.py:28-29 | `test e2e rest` gives the same vector as `test pydj_auth/tests/e2e rest` |
| `Manage.BareIsAlias` | manage.py:32-33 | a bare `test` gives the same vector as `test pydj_auth/tests` |

## Left out

- `subprocess.run` and `subprocess.call` are not executed. The model sees only their outcome, `RunResult`. The streaming of docker output to the console is not modelled.
- `SystemExit` with pytest's exit code (manage.py:34) and `main()` (manage.py:7-18, 35) are Django bootstrap. The model stops at `None`.
- Django's `BaseCommand`, the `CommandError` class hierarchy, `create_parser` and the argparse subparser machinery with its help text are not modelled. `ParsedOptions` records only the store_true defaults.
- `DockerCompose.ErrorMessage`: the text of the CalledProcessError is a parameter (`detail`), because Python's standard library renders it. The model does not state that the text names the exit code and the command. The `Cause` value carries both exactly.
- `self.style.SUCCESS` terminal styling is not modelled. The success line is the plain message.
- Exceptions other than CalledProcessError and FileNotFoundError (for example PermissionError) pass through `_run_command` uncaught. They are not modelled.
- The end-to-end tests need a live Docker daemon. Their detached-`up` assertion is covered by `UpDetachedUnlessLogs`.
- The phrases the unit tests look for in the announcement lines ("detached mode", "removing volumes", "service status" and the rest) are not proved as substrings. The verifier cannot compare string literals of that length character by character within the resource limit. `Announcement` holds the code's literals verbatim, and its contract states the general fact that a `logs` line names its service.

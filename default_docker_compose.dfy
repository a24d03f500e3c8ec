/** DefaultDockerCompose: the facade that turns each compose operation into argument
    vectors for the compose executable and decides, from the exit code and the captured
    output, whether the operation succeeded. */
module Execution {
  import opened Failures
  import opened Text
  import opened Versions

  /** The arguments handed to `docker-compose`, without the program name. */
  type Argv = seq<string>

  /** What one run of the compose executable yields: the exit code and the whole captured
      output, or an interruption while waiting for the process. */
  datatype ProcessOutcome = Exited(exitCode: int, output: string) | Interrupted

  /** The two error handlers the facade chooses between. */
  datatype ErrorHandler = ThrowingOnError | SwallowingDownCommandDoesNotExist

  datatype DockerPort = DockerPort(ip: string, externalPort: int, internalPort: int)
  type ContainerNames = set<string>
  type Ports = set<DockerPort>

  /** What the facade talks to but does not define: the executable, the docker machine's IP
      and the three text parsers. They are parameters: the executor is any function of the
      argument vector (one fixed outcome per vector), the parsers any total functions. */
  datatype Collaborators = Collaborators(
    execute: Argv -> ProcessOutcome,
    machineIp: string,
    parseVersion: string -> Version,
    parseContainerNames: string -> ContainerNames,
    parsePorts: (string, string) -> Ports)

  const VERSION_1_7_0 := Version(1, 7, 0)
  const EXEC_VERSION_MESSAGE := "You need at least docker-compose 1.7 to run docker-compose exec"
  const NO_SUCH_COMMAND := "No such command"
  const OUTPUT_HEADER := "\nThe output was:\n"

  const BUILD: Argv := ["build"]
  const UP: Argv := ["up", "-d"]
  const DOWN: Argv := ["down"]
  const KILL: Argv := ["kill"]
  const RM: Argv := ["rm", "-f"]
  const PS: Argv := ["ps"]
  const VERSION: Argv := ["-v"]

  function PortsArguments(service: string): (args: Argv)
    ensures |args| == 2 && args[..1] == PS && args[1] == service
  {
    ["ps", service]
  }

  /** The `logs` vector; `--follow` is only understood from 1.7.0 on. */
  function LogsArguments(container: string, follow: bool): (args: Argv)
    ensures |args| == (if follow then 4 else 3)
    ensures args[0] == "logs" && args[1] == "--no-color" && args[|args| - 1] == container
    ensures follow ==> args[2] == "--follow"
  {
    if follow then ["logs", "--no-color", "--follow", container] else ["logs", "--no-color", container]
  }

  /** `constructFullDockerComposeExecArguments`: "exec", the options, the container, the arguments. */
  function ExecArguments(options: seq<string>, containerName: string, arguments: seq<string>): (args: Argv)
    ensures |args| == |options| + |arguments| + 2
    ensures args[0] == "exec"
    ensures args[1..|options| + 1] == options
    ensures args[|options| + 1] == containerName
    ensures args[|options| + 2..] == arguments
  {
    ["exec"] + options + [containerName] + arguments
  }

  /** `constructNonZeroExitErrorMessage`. */
  function NonZeroExitErrorMessage(exitCode: int, commands: Argv): (message: string)
    ensures "'docker-compose " <= message
  {
    "'docker-compose " + Join(commands, " ") + "' returned exit code " + IntToString(exitCode)
  }

  /** The message the throwing handler raises. */
  function ThrowingMessage(exitCode: int, output: string, commands: Argv): (message: string)
    ensures NonZeroExitErrorMessage(exitCode, commands) <= message
    ensures |message| >= |output| && message[|message| - |output|..] == output
  {
    NonZeroExitErrorMessage(exitCode, commands) + OUTPUT_HEADER + output
  }

  /** The message tells the exit code apart: two codes give two messages for one command. */
  lemma NonZeroExitErrorMessageDeterminesExitCode(code1: int, code2: int, commands: Argv)
    requires NonZeroExitErrorMessage(code1, commands) == NonZeroExitErrorMessage(code2, commands)
    ensures code1 == code2
  {
    var head := "'docker-compose " + Join(commands, " ") + "' returned exit code ";
    var m1, m2 := NonZeroExitErrorMessage(code1, commands), NonZeroExitErrorMessage(code2, commands);
    assert m1[|head|..] == IntToString(code1);
    assert m2[|head|..] == IntToString(code2);
    IntToStringInjective(code1, code2);
  }

  /** `downCommandWasPresent`: the output does not report an unknown sub-command. */
  predicate DownCommandWasPresent(output: string)
    ensures NO_SUCH_COMMAND <= output ==> !DownCommandWasPresent(output)
    ensures |output| < |NO_SUCH_COMMAND| ==> DownCommandWasPresent(output)
  {
    NotContainsLonger(output, NO_SUCH_COMMAND);
    !Contains(output, NO_SUCH_COMMAND)
  }

  /** `ErrorHandler.handle`, run only for a non-zero exit: `Ok` when it returns normally,
      `Err` with what it throws. */
  function Handle(handler: ErrorHandler, exitCode: int, output: string, commands: Argv): (r: Result<()>)
    ensures handler == ThrowingOnError ==> r.Err?
    ensures handler == SwallowingDownCommandDoesNotExist ==> (r.Ok? <==> Contains(output, NO_SUCH_COMMAND))
    ensures r.Err? ==> r.failure == DockerComposeExecutionException(ThrowingMessage(exitCode, output, commands))
  {
    var thrown := Err(DockerComposeExecutionException(ThrowingMessage(exitCode, output, commands)));
    match handler
    case ThrowingOnError => thrown
    case SwallowingDownCommandDoesNotExist => if DownCommandWasPresent(output) then thrown else Ok(())
  }

  /** `executeDockerComposeCommand` once the executable has produced `outcome`: the output
      is returned unchanged unless the exit code is non-zero and the handler throws. */
  function CommandResult(handler: ErrorHandler, commands: Argv, outcome: ProcessOutcome): (r: Result<string>)
    ensures outcome.Interrupted? ==> r == Err(InterruptedException)
    ensures r.Ok? <==>
      outcome.Exited? &&
      (outcome.exitCode == 0 || (handler == SwallowingDownCommandDoesNotExist && Contains(outcome.output, NO_SUCH_COMMAND)))
    ensures r.Ok? ==> r.value == outcome.output
    ensures r.Err? && outcome.Exited? ==>
      r.failure == DockerComposeExecutionException(ThrowingMessage(outcome.exitCode, outcome.output, commands))
  {
    match outcome
    case Interrupted => Err(InterruptedException)
    case Exited(exitCode, output) =>
      if exitCode != 0 && Handle(handler, exitCode, output, commands).Err? then
        Err(Handle(handler, exitCode, output, commands).failure)
      else
        Ok(output)
  }

  /** The argument vectors one operation issues, in order, and what it returns. */
  datatype Step<T> = Step(calls: seq<Argv>, result: Result<T>)

  /** One operation that only runs `commands` and discards the output. */
  function CommandStep(c: Collaborators, handler: ErrorHandler, commands: Argv): (s: Step<()>)
    ensures s.calls == [commands]
    ensures s.result.Ok? <==> CommandResult(handler, commands, c.execute(commands)).Ok?
    ensures s.result.Err? ==> s.result.failure == CommandResult(handler, commands, c.execute(commands)).failure
  {
    var r := CommandResult(handler, commands, c.execute(commands));
    Step([commands], if r.Ok? then Ok(()) else Err(r.failure))
  }

  /** `version()`: `-v` under the throwing handler, then the version parser. */
  function VersionResult(c: Collaborators): (r: Result<Version>)
    ensures r.Ok? <==> c.execute(VERSION).Exited? && c.execute(VERSION).exitCode == 0
    ensures r.Ok? ==> r.value == c.parseVersion(c.execute(VERSION).output)
    ensures r.Err? ==> r.failure == CommandResult(ThrowingOnError, VERSION, c.execute(VERSION)).failure
  {
    var out := CommandResult(ThrowingOnError, VERSION, c.execute(VERSION));
    if out.Ok? then Ok(c.parseVersion(out.value)) else Err(out.failure)
  }

  /** `exec`: asks for the version first and runs the exec vector only from 1.7.0 on. */
  function ExecStep(c: Collaborators, options: seq<string>, containerName: string, arguments: seq<string>)
    : (s: Step<string>)
    ensures 1 <= |s.calls| <= 2 && s.calls[0] == VERSION
    ensures |s.calls| == 2 <==> VersionResult(c).Ok? && GreaterThanOrEqualTo(VersionResult(c).value, VERSION_1_7_0)
    ensures VersionResult(c).Err? ==> s.result == Err(VersionResult(c).failure)
    ensures VersionResult(c).Ok? && !GreaterThanOrEqualTo(VersionResult(c).value, VERSION_1_7_0) ==>
      s.result == Err(IllegalStateException(EXEC_VERSION_MESSAGE))
    ensures |s.calls| == 2 ==>
      s.calls[1] == ExecArguments(options, containerName, arguments) &&
      s.result == CommandResult(ThrowingOnError, s.calls[1], c.execute(s.calls[1]))
  {
    var version := VersionResult(c);
    if version.Err? then Step([VERSION], Err(version.failure))
    else if !GreaterThanOrEqualTo(version.value, VERSION_1_7_0) then
      Step([VERSION], Err(IllegalStateException(EXEC_VERSION_MESSAGE)))
    else
      var args := ExecArguments(options, containerName, arguments);
      Step([VERSION, args], CommandResult(ThrowingOnError, args, c.execute(args)))
  }

  /** `ps`: the parsed container names of a successful `ps`. */
  function PsStep(c: Collaborators): (s: Step<ContainerNames>)
    ensures s.calls == [PS]
    ensures s.result.Ok? <==> c.execute(PS).Exited? && c.execute(PS).exitCode == 0
    ensures s.result.Ok? ==> s.result.value == c.parseContainerNames(c.execute(PS).output)
    ensures !(c.execute(PS).Exited? && c.execute(PS).exitCode == 0) ==>
      s.result == Err(CommandResult(ThrowingOnError, PS, c.execute(PS)).failure)
  {
    var out := CommandResult(ThrowingOnError, PS, c.execute(PS));
    Step([PS], if out.Ok? then Ok(c.parseContainerNames(out.value)) else Err(out.failure))
  }

  /** `ports(service)`: `ps <service>`, refused when it prints nothing. */
  function PortsStep(c: Collaborators, service: string): (s: Step<Ports>)
    ensures s.calls == [PortsArguments(service)]
    ensures s.result.Ok? <==> c.execute(PortsArguments(service)).Exited? && c.execute(PortsArguments(service)).exitCode == 0
                              && c.execute(PortsArguments(service)).output != ""
    ensures c.execute(PortsArguments(service)) == Exited(0, "") ==>
      s.result == Err(IllegalStateException("No container with name '" + service + "' found"))
    ensures s.result.Ok? ==> s.result.value == c.parsePorts(c.execute(PortsArguments(service)).output, c.machineIp)
    ensures !(c.execute(PortsArguments(service)).Exited? && c.execute(PortsArguments(service)).exitCode == 0) ==>
      s.result == Err(CommandResult(ThrowingOnError, PortsArguments(service), c.execute(PortsArguments(service))).failure)
  {
    var args := PortsArguments(service);
    var out := CommandResult(ThrowingOnError, args, c.execute(args));
    Step([args],
      if out.Err? then Err(out.failure)
      else if out.value == "" then Err(IllegalStateException("No container with name '" + service + "' found"))
      else Ok(c.parsePorts(out.value, c.machineIp)))
  }

  /** `writeLogs`, with what it copies to the output stream. */
  datatype LogsStep = LogsStep(calls: seq<Argv>, result: Result<bool>, written: string)

  /** `writeLogs(container, output)`: the version decides `--follow`; the exit code of `logs`
      is never inspected; an interruption anywhere reads as "did not finish". */
  function WriteLogsStep(c: Collaborators, container: string): (s: LogsStep)
    ensures 1 <= |s.calls| <= 2 && s.calls[0] == VERSION
    ensures |s.calls| == 2 <==> VersionResult(c).Ok?
    ensures |s.calls| == 2 ==>
      s.calls[1] == LogsArguments(container, GreaterThanOrEqualTo(VersionResult(c).value, VERSION_1_7_0))
    ensures s.result == Ok(false) <==>
      c.execute(VERSION).Interrupted? || (|s.calls| == 2 && c.execute(s.calls[1]).Interrupted?)
    ensures s.result.Err? <==> c.execute(VERSION).Exited? && c.execute(VERSION).exitCode != 0
    ensures s.result.Err? ==> s.result.failure == VersionResult(c).failure
    ensures s.result == Ok(true) ==> s.written == c.execute(s.calls[1]).output
    ensures s.result != Ok(true) ==> s.written == ""
  {
    var version := VersionResult(c);
    if version.Err? then
      LogsStep([VERSION], if version.failure == InterruptedException then Ok(false) else Err(version.failure), "")
    else
      var args := LogsArguments(container, GreaterThanOrEqualTo(version.value, VERSION_1_7_0));
      match c.execute(args)
      case Interrupted => LogsStep([VERSION, args], Ok(false), "")
      case Exited(_, output) => LogsStep([VERSION, args], Ok(true), output)
  }

  /** The facade. The executable is stateful from the outside: `issued` records every
      argument vector handed to it, oldest first. */
  class DefaultDockerCompose {
    const collaborators: Collaborators
    var issued: seq<Argv>

    constructor (collaborators: Collaborators)
      ensures this.collaborators == collaborators && issued == []
    {
      this.collaborators := collaborators;
      issued := [];
    }

    /** `executeDockerComposeCommand(errorHandler, commands...)`. */
    method ExecuteDockerComposeCommand(handler: ErrorHandler, commands: Argv) returns (r: Result<string>)
      modifies this
      ensures issued == old(issued) + [commands]
      ensures r == CommandResult(handler, commands, collaborators.execute(commands))
    {
      issued := issued + [commands];
      var outcome := collaborators.execute(commands);
      match outcome {
        case Interrupted =>
          r := Err(InterruptedException);
        case Exited(exitCode, output) =>
          r := Ok(output);
          if exitCode != 0 {
            var handled := Handle(handler, exitCode, output, commands);
            if handled.Err? {
              r := Err(handled.failure);
            }
          }
      }
    }

    /** Runs `commands` for its effect only. */
    method Run(handler: ErrorHandler, commands: Argv) returns (r: Result<()>)
      modifies this
      ensures issued == old(issued) + CommandStep(collaborators, handler, commands).calls
      ensures r == CommandStep(collaborators, handler, commands).result
    {
      var out := ExecuteDockerComposeCommand(handler, commands);
      r := if out.Ok? then Ok(()) else Err(out.failure);
    }

    method Build() returns (r: Result<()>)
      modifies this
      ensures issued == old(issued) + [BUILD]
      ensures r == CommandStep(collaborators, ThrowingOnError, BUILD).result
    {
      r := Run(ThrowingOnError, BUILD);
    }

    method Up() returns (r: Result<()>)
      modifies this
      ensures issued == old(issued) + [UP]
      ensures r == CommandStep(collaborators, ThrowingOnError, UP).result
    {
      r := Run(ThrowingOnError, UP);
    }

    method Down() returns (r: Result<()>)
      modifies this
      ensures issued == old(issued) + [DOWN]
      ensures r == CommandStep(collaborators, SwallowingDownCommandDoesNotExist, DOWN).result
    {
      r := Run(SwallowingDownCommandDoesNotExist, DOWN);
    }

    method Kill() returns (r: Result<()>)
      modifies this
      ensures issued == old(issued) + [KILL]
      ensures r == CommandStep(collaborators, ThrowingOnError, KILL).result
    {
      r := Run(ThrowingOnError, KILL);
    }

    method Rm() returns (r: Result<()>)
      modifies this
      ensures issued == old(issued) + [RM]
      ensures r == CommandStep(collaborators, ThrowingOnError, RM).result
    {
      r := Run(ThrowingOnError, RM);
    }

    /** `version()`. */
    method GetVersion() returns (r: Result<Version>)
      modifies this
      ensures issued == old(issued) + [VERSION]
      ensures r == VersionResult(collaborators)
    {
      var out := ExecuteDockerComposeCommand(ThrowingOnError, VERSION);
      r := if out.Ok? then Ok(collaborators.parseVersion(out.value)) else Err(out.failure);
    }

    method Exec(options: seq<string>, containerName: string, arguments: seq<string>) returns (r: Result<string>)
      modifies this
      ensures issued == old(issued) + ExecStep(collaborators, options, containerName, arguments).calls
      ensures r == ExecStep(collaborators, options, containerName, arguments).result
    {
      var version := GetVersion();
      if version.Err? {
        return Err(version.failure);
      }
      if !GreaterThanOrEqualTo(version.value, VERSION_1_7_0) {
        return Err(IllegalStateException(EXEC_VERSION_MESSAGE));
      }
      var fullArgs := ExecArguments(options, containerName, arguments);
      r := ExecuteDockerComposeCommand(ThrowingOnError, fullArgs);
    }

    method Ps() returns (r: Result<ContainerNames>)
      modifies this
      ensures issued == old(issued) + PsStep(collaborators).calls
      ensures r == PsStep(collaborators).result
    {
      var psOutput := ExecuteDockerComposeCommand(ThrowingOnError, PS);
      r := if psOutput.Ok? then Ok(collaborators.parseContainerNames(psOutput.value)) else Err(psOutput.failure);
    }

    method GetPorts(service: string) returns (r: Result<Ports>)
      modifies this
      ensures issued == old(issued) + PortsStep(collaborators, service).calls
      ensures r == PortsStep(collaborators, service).result
    {
      var psOutput := ExecuteDockerComposeCommand(ThrowingOnError, PortsArguments(service));
      if psOutput.Err? {
        return Err(psOutput.failure);
      }
      if psOutput.value == "" {
        return Err(IllegalStateException("No container with name '" + service + "' found"));
      }
      r := Ok(collaborators.parsePorts(psOutput.value, collaborators.machineIp));
    }

    /** `writeLogs`; `written` is what reaches the output stream. `logs` is started on the
        raw executable, so its exit code is not looked at. */
    method WriteLogs(container: string) returns (r: Result<bool>, written: string)
      modifies this
      ensures issued == old(issued) + WriteLogsStep(collaborators, container).calls
      ensures r == WriteLogsStep(collaborators, container).result
      ensures written == WriteLogsStep(collaborators, container).written
    {
      written := "";
      var version := GetVersion();
      if version.Err? {
        r := if version.failure == InterruptedException then Ok(false) else Err(version.failure);
        return;
      }
      var args := LogsArguments(container, GreaterThanOrEqualTo(version.value, VERSION_1_7_0));
      issued := issued + [args];
      match collaborators.execute(args) {
        case Interrupted =>
          r := Ok(false);
        case Exited(_, output) =>
          written := output;
          r := Ok(true);
      }
    }
  }
}

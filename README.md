# docker-compose-rule: environment validation and the compose facade

This project models two parts of the core of docker-compose-rule, a JUnit helper that drives
`docker-compose` for integration tests:

- **RemoteEnvironmentValidator** (module `Configuration`, `remote_environment_validator.dfy`).
  It checks a remote docker environment given as a name → value map. `DOCKER_HOST` is always
  required. `DOCKER_TLS_VERIFY` and `DOCKER_CERT_PATH` are also required once the map has the key
  `DOCKER_TLS_VERIFY`, whatever its value. A name counts as missing when it is absent or maps to
  the empty string (the model's map has no null values).
  On success the map comes back unchanged. Otherwise one `IllegalStateException` names every
  missing variable between a fixed prefix and suffix.
- **DefaultDockerCompose** (module `Execution`, `default_docker_compose.dfy`). This is the facade
  that sends argument vectors to the compose executable. It decides from the exit code and the
  captured output whether an operation failed. It uses one of two error handlers: always throw,
  or swallow a failing `down` whose output reports `No such command`. It also gates `exec` and
  `logs --follow` on the version that `-v` reports.
  - Each operation has a pure step function (`ExecStep`, `PortsStep`, `WriteLogsStep`, …). It gives
    the argument vectors the operation issues, in order, and its result.
  - The class `DefaultDockerCompose` records every issued vector in `issued`. Each of its methods
    is proved to append exactly its step's vectors and to return its step's result.

Helper modules:
- `Failures` holds the exceptions as values: `IllegalStateException`,
  `DockerComposeExecutionException` and `InterruptedException`.
- `Text` holds `String.contains`, `Collectors.joining` and the decimal rendering of an `int`.
- `Versions` holds the version triple and its order.
- `DockerComposeScenarios` derives the facade's behaviour in the situations that the repository's
  unit tests set up.

The compose executable, the docker machine's IP and the three text parsers (`ContainerNames`,
`Ports`, `DockerComposeVersion`) are not part of this model. They are the fields of the
`Collaborators` value, so every result holds for any executor and any total parser. The executor
is a function from an argument vector to `Exited(exitCode, output)` or `Interrupted`. The scenario
lemmas take the executor's answers from the outputs the repository's tests feed their mock
executor. What the version parser makes of those outputs is an assumption about a parser whose
code is not part of this model. Each lemma's requires states only the gate fact: the `1.7.0rc1`
and `1.7.0` outputs pass the 1.7.0 gate, and the `1.5.6` output does not.

Three behaviours of the code worth noting:
- A too-old `exec` raises `IllegalStateException` from `validState`.
- An empty `ps <service>` listing also raises `IllegalStateException`.
- During `writeLogs`, a failing `-v` propagates its `DockerComposeExecutionException`. Only an
  interruption becomes `false`.

## Model

| member | source | states |
|---|---|---|
| `Configuration.IsNullOrEmpty` | src/main/java/com/palantir/docker/compose/configuration/RemoteEnvironmentValidator.java:58 | defines the filter's test: the name is absent or maps to the empty string, so a name it does not flag is present with a non-empty value; its consequences are stated by `FilterMissing` and `MissingEnvVariables` |
| `Configuration.CertVerificationEnabled` | src/main/java/com/palantir/docker/compose/configuration/RemoteEnvironmentValidator.java:66-68 | defines TLS as on exactly when `DOCKER_TLS_VERIFY` is a key, whatever its value; used by `RequiredVariables` |
| `Configuration.SecureVariablesRequired` | src/main/java/com/palantir/docker/compose/configuration/RemoteEnvironmentValidator.java:62-64 | the secure names are required (non-empty list) iff `DOCKER_TLS_VERIFY` is a key |
| `Configuration.MissingVariablesMessage` | src/main/java/com/palantir/docker/compose/configuration/RemoteEnvironmentValidator.java:45-49 | the message starts with "Missing required environment variables: " and ends with the remediation suffix; the names in between are proved present by `ValidateNamesEveryMissingVariable` |
| `Configuration.RequiredVariables` | src/main/java/com/palantir/docker/compose/configuration/RemoteEnvironmentValidator.java:55-68 | DOCKER_HOST is always required; DOCKER_TLS_VERIFY and DOCKER_CERT_PATH are required exactly when the TLS key is present; nothing else is ever required |
| `Configuration.FilterMissing` | src/main/java/com/palantir/docker/compose/configuration/RemoteEnvironmentValidator.java:57-59 | a name is kept iff it is among the given names and absent or empty; the result is empty iff every given name is set to a non-empty value |
| `Configuration.FilterMissingDistinct` | src/main/java/com/palantir/docker/compose/configuration/RemoteEnvironmentValidator.java:57-59 | filtering a list without repeats gives a list without repeats (the source collects a set) |
| `Configuration.MissingEnvVariables` | src/main/java/com/palantir/docker/compose/configuration/RemoteEnvironmentValidator.java:55-60 | lists each missing name once; DOCKER_HOST is missing iff absent or empty; DOCKER_TLS_VERIFY iff present with an empty value; DOCKER_CERT_PATH iff TLS is on and it is absent or empty; only required names appear |
| `Configuration.Validate` | src/main/java/com/palantir/docker/compose/configuration/RemoteEnvironmentValidator.java:43-53 | succeeds iff nothing is missing; on success returns the input map itself; on failure raises IllegalStateException with prefix, all missing names joined by ", ", and the remediation suffix |
| `Configuration.ValidateNamesEveryMissingVariable` | src/main/java/com/palantir/docker/compose/configuration/RemoteEnvironmentValidator.java:44-51 | every missing name makes validation fail, appears in the message, and the message starts with "Missing required environment variables: " |
| `Configuration.HostIsRequired` | src/test/java/com/palantir/docker/compose/configuration/RemoteEnvironmentValidatorTest.java:36-45 | an absent or empty DOCKER_HOST fails and the message names DOCKER_HOST |
| `Configuration.CertPathIsRequiredWithTls` | src/test/java/com/palantir/docker/compose/configuration/RemoteEnvironmentValidatorTest.java:48-59 | with the TLS key present, an absent or empty DOCKER_CERT_PATH fails and is named in the message |
| `Configuration.WithoutTlsOnlyHostIsRequired` | src/test/java/com/palantir/docker/compose/configuration/RemoteEnvironmentValidatorTest.java:62-69 | without the TLS key, the result is the map itself when DOCKER_HOST is set and the one-name failure otherwise |
| `Configuration.AllVariablesSetWithTlsPasses` | src/test/java/com/palantir/docker/compose/configuration/RemoteEnvironmentValidatorTest.java:72-81 | with all three variables non-empty the map is returned unchanged |
| `Configuration.ExtraVariablesNeverMatter` | src/main/java/com/palantir/docker/compose/configuration/RemoteEnvironmentValidator.java:55-60 | adding or changing any other key never changes whether validation succeeds |
| `Text.Contains` | src/main/java/com/palantir/docker/compose/execution/DefaultDockerCompose.java:194 | defines `String.contains` recursively; a text contains each of its prefixes, and `ContainsIffOccurrence` proves it holds iff the text occurs at some offset |
| `Text.Join` | src/main/java/com/palantir/docker/compose/execution/DefaultDockerCompose.java:178 | defines `joining(sep)` over a list in order; the joined text starts with the first element, and `JoinContainsEach` proves every element occurs in it |
| `Text.IntToString` | src/main/java/com/palantir/docker/compose/execution/DefaultDockerCompose.java:178 | the rendering of an exit code is non-empty and starts with '-' iff the code is negative; `IntToStringRoundTrip` proves it reads back as the same number |
| `Text.ContainsIffOccurrence` | src/main/java/com/palantir/docker/compose/execution/DefaultDockerCompose.java:193-195 | the substring test used on the output holds iff the marker starts at some offset |
| `Text.NotContainsLonger` | src/main/java/com/palantir/docker/compose/execution/DefaultDockerCompose.java:193-195 | a text never contains a longer marker (so empty output never reports "No such command") |
| `Text.JoinContainsEach` | src/main/java/com/palantir/docker/compose/configuration/RemoteEnvironmentValidator.java:45-49 | every element of a joined list occurs in the joined text |
| `Text.IntToStringRoundTrip` | src/main/java/com/palantir/docker/compose/execution/DefaultDockerCompose.java:177-179 | the decimal rendering of an exit code reads back as the same number |
| `Versions.CompareTo` | src/main/java/com/palantir/docker/compose/execution/DefaultDockerCompose.java:97-99 | the ordering that `greaterThanOrEqualTo` consults: a three-way result in -1..1, zero exactly for equal versions |
| `Versions.GreaterThanOrEqualTo` | src/main/java/com/palantir/docker/compose/execution/DefaultDockerCompose.java:97-99 | defines "at least" as CompareTo(a, b) >= 0 (equal versions pass, a lower major never does); `GreaterThanOrEqualToIsLexicographic` proves it is the lexicographic order and `GreaterThanOrEqualToIsTotalOrder` that it is a total order |
| `Versions.GreaterThanOrEqualToIsLexicographic` | src/main/java/com/palantir/docker/compose/execution/DefaultDockerCompose.java:97-99 | "at least" is the lexicographic order on (major, minor, patch) |
| `Versions.CompareToAntisymmetric` | src/main/java/com/palantir/docker/compose/execution/DefaultDockerCompose.java:97-99 | swapping the operands negates the comparison |
| `Versions.GreaterThanOrEqualToIsTotalOrder` | src/main/java/com/palantir/docker/compose/execution/DefaultDockerCompose.java:97-99 | "at least" is reflexive, antisymmetric, transitive and total |
| `Execution.PortsArguments` | src/main/java/com/palantir/docker/compose/execution/DefaultDockerCompose.java:153 | defines the vector ["ps", service] that `ports` issues; stated by `PortsStep` |
| `Execution.NonZeroExitErrorMessage` | src/main/java/com/palantir/docker/compose/execution/DefaultDockerCompose.java:177-179 | defines the message as "'docker-compose " + the commands joined by spaces + "' returned exit code " + the code; it starts with "'docker-compose ", and `NonZeroExitErrorMessageDeterminesExitCode` proves it determines the exit code |
| `Execution.ThrowingMessage` | src/main/java/com/palantir/docker/compose/execution/DefaultDockerCompose.java:158-163 | the thrown text starts with the non-zero-exit message and ends with the captured output (after "\nThe output was:\n") |
| `Execution.DownCommandWasPresent` | src/main/java/com/palantir/docker/compose/execution/DefaultDockerCompose.java:193-195 | false whenever the output starts with "No such command", true whenever the output is shorter than that marker (so empty output counts as a present `down`) |
| `Execution.LogsArguments` | src/main/java/com/palantir/docker/compose/execution/DefaultDockerCompose.java:143-149 | logs, --no-color, then --follow only when following, and the container last |
| `Execution.ExecArguments` | src/main/java/com/palantir/docker/compose/execution/DefaultDockerCompose.java:106-114 | the vector is "exec", then the options, then the container, then the arguments, and nothing else |
| `Execution.NonZeroExitErrorMessageDeterminesExitCode` | src/main/java/com/palantir/docker/compose/execution/DefaultDockerCompose.java:177-179 | two exit codes of one command never give the same error message |
| `Execution.Handle` | src/main/java/com/palantir/docker/compose/execution/DefaultDockerCompose.java:158-195 | the throwing handler always throws; the down handler returns normally iff the output contains "No such command"; whatever is thrown is "'docker-compose <args joined by space>' returned exit code <code>\nThe output was:\n<output>" |
| `Execution.CommandResult` | src/main/java/com/palantir/docker/compose/execution/DefaultDockerCompose.java:165-174 | succeeds iff the process exited with 0, or the down handler saw "No such command"; on success the output is returned unchanged; an interruption propagates; any other failure carries the exact throwing message |
| `Execution.CommandStep` | src/main/java/com/palantir/docker/compose/execution/DefaultDockerCompose.java:64-87 | a one-command operation issues exactly its vector and fails exactly when the command result does, with the same failure |
| `Execution.VersionResult` | src/main/java/com/palantir/docker/compose/execution/DefaultDockerCompose.java:101-104 | a version is obtained iff `-v` exits with 0, and it is the parse of `-v`'s output; otherwise `-v`'s failure |
| `Execution.ExecStep` | src/main/java/com/palantir/docker/compose/execution/DefaultDockerCompose.java:89-104 | `-v` is issued first; the exec vector is issued second iff the version was obtained and is at least 1.7.0; a too-old version gives "You need at least docker-compose 1.7 to run docker-compose exec"; otherwise the result is the exec command's result |
| `Execution.PsStep` | src/main/java/com/palantir/docker/compose/execution/DefaultDockerCompose.java:116-120 | issues ps; succeeds iff ps exits with 0, with the parse of its output; otherwise fails with exactly the throwing handler's failure (or the interruption) |
| `Execution.PortsStep` | src/main/java/com/palantir/docker/compose/execution/DefaultDockerCompose.java:151-156 | issues ps <service>; succeeds iff it exits with 0 and prints something, with the parse of that output against the machine IP; empty output fails with "No container with name '<service>' found"; a non-zero exit or interruption fails with exactly the throwing handler's failure |
| `Execution.WriteLogsStep` | src/main/java/com/palantir/docker/compose/execution/DefaultDockerCompose.java:131-149 | `-v` first; logs issued iff the version was obtained, with --follow iff it is at least 1.7.0; false exactly on an interruption; an error only when `-v` exits non-zero, and then exactly `-v`'s throwing failure; true means the logs output was copied; otherwise nothing is written |
| `Execution.DefaultDockerCompose.constructor` | src/main/java/com/palantir/docker/compose/execution/DefaultDockerCompose.java:58-62 | a new facade over the given collaborators has issued nothing |
| `Execution.DefaultDockerCompose.ExecuteDockerComposeCommand` | src/main/java/com/palantir/docker/compose/execution/DefaultDockerCompose.java:165-174 | issues the commands once, appended to the log, and returns the command result |
| `Execution.DefaultDockerCompose.Run` | src/main/java/com/palantir/docker/compose/execution/DefaultDockerCompose.java:165-174 | runs one command for its effect: appends its step's calls, returns its step's result |
| `Execution.DefaultDockerCompose.Build` | src/main/java/com/palantir/docker/compose/execution/DefaultDockerCompose.java:64-67 | appends ["build"]; throwing handler |
| `Execution.DefaultDockerCompose.Up` | src/main/java/com/palantir/docker/compose/execution/DefaultDockerCompose.java:69-72 | appends ["up","-d"]; throwing handler |
| `Execution.DefaultDockerCompose.Down` | src/main/java/com/palantir/docker/compose/execution/DefaultDockerCompose.java:74-77 | appends ["down"]; the handler that swallows "No such command" |
| `Execution.DefaultDockerCompose.Kill` | src/main/java/com/palantir/docker/compose/execution/DefaultDockerCompose.java:79-82 | appends ["kill"]; throwing handler |
| `Execution.DefaultDockerCompose.Rm` | src/main/java/com/palantir/docker/compose/execution/DefaultDockerCompose.java:84-87 | appends ["rm","-f"]; throwing handler |
| `Execution.DefaultDockerCompose.GetVersion` | src/main/java/com/palantir/docker/compose/execution/DefaultDockerCompose.java:101-104 | appends ["-v"] and returns the version result |
| `Execution.DefaultDockerCompose.Exec` | src/main/java/com/palantir/docker/compose/execution/DefaultDockerCompose.java:89-99 | appends the exec step's calls (`-v`, then the exec vector only when allowed) and returns its result |
| `Execution.DefaultDockerCompose.Ps` | src/main/java/com/palantir/docker/compose/execution/DefaultDockerCompose.java:116-120 | appends ["ps"] and returns the ps step's result |
| `Execution.DefaultDockerCompose.GetPorts` | src/main/java/com/palantir/docker/compose/execution/DefaultDockerCompose.java:151-156 | appends ["ps", service] and returns the ports step's result |
| `Execution.DefaultDockerCompose.WriteLogs` | src/main/java/com/palantir/docker/compose/execution/DefaultDockerCompose.java:131-149 | appends the logs step's calls and returns its result and what reached the output stream |
| `DockerComposeScenarios.KillFailureNamesCommandAndExitCode` | src/test/java/com/palantir/docker/compose/execution/DockerComposeTest.java:103-108 | kill exiting with 1 raises "'docker-compose kill' returned exit code 1" followed by the output |
| `DockerComposeScenarios.DownOnOldComposeIsSwallowed` | src/test/java/com/palantir/docker/compose/execution/DockerComposeTest.java:111-115 | down exiting with 1 and printing "No such command: down" succeeds |
| `DockerComposeScenarios.DownFailingSilentlyThrows` | src/test/java/com/palantir/docker/compose/execution/DockerComposeTest.java:118-125 | down exiting with 1 and printing nothing raises the throwing message |
| `DockerComposeScenarios.ExecPassesConcatenatedArguments` | src/test/java/com/palantir/docker/compose/execution/DockerComposeTest.java:143-147 | when the 1.7.0rc1 output passes the 1.7.0 gate, exec issues -v and then ["exec","-d","container_1","ls"] |
| `DockerComposeScenarios.ExecRefusedBeforeOneSeven` | src/test/java/com/palantir/docker/compose/execution/DockerComposeTest.java:150-155 | when the 1.5.6 output does not pass the gate, exec issues only -v and fails with the 1.7 message |
| `DockerComposeScenarios.ExecReturnsCommandOutput` | src/test/java/com/palantir/docker/compose/execution/DockerComposeTest.java:158-172 | exec returns exactly the output of the exec command |
| `DockerComposeScenarios.LogsWithoutFollowBeforeOneSeven` | src/test/java/com/palantir/docker/compose/execution/DockerComposeTest.java:81-89 | when the 1.5.6 output does not pass the gate, logs are fetched without --follow, copied, and writeLogs returns true |
| `DockerComposeScenarios.LogsFollowFromOneSeven` | src/test/java/com/palantir/docker/compose/execution/DockerComposeTest.java:92-100 | when the 1.7.0 output passes the gate, logs are fetched with --follow, copied, and writeLogs returns true |
| `DockerComposeScenarios.ExecGateIsMonotone` | src/main/java/com/palantir/docker/compose/execution/DefaultDockerCompose.java:89-99 | any version at or above one that passes the 1.7.0 gate also passes it |
| `DockerComposeScenarios.PortsOfUnknownServiceFail` | src/test/java/com/palantir/docker/compose/execution/DockerComposeTest.java:135-140 | empty ps db output fails with "No container with name 'db' found" |
| `DockerComposeScenarios.ExecOnFreshFacade` | src/test/java/com/palantir/docker/compose/execution/DockerComposeTest.java:143-147 | through a new facade, the recorded calls are exactly -v then the exec vector, and the result is the exec command's result |

## Left out

- Process spawning, draining the output stream, and the 2-minute `waitFor` timeout in
  `writeLogs` (DefaultDockerCompose.java:131-141) are operating-system I/O and concurrency. The
  executor is a function from an argument vector to an outcome. A timeout is not distinguished
  from a normal exit, and the source ignores `waitFor`'s result as well.
- Interruption is modelled only as the `Interrupted` outcome of one command.
- `IOException` from the executor is not modelled.
- `SynchronousDockerComposeExecutable`, `DockerComposeExecutable`, `DockerMachine.getIp`,
  `ContainerNames.parseFromDockerComposePs`, `Ports.parseFromDockerComposePs` and
  `DockerComposeVersion.parseFromDockerComposeVersion` are not part of this model. They are
  parameters (the fields of `Collaborators`).
- The parsers are total functions, so a parser that throws cannot be expressed. In the source such
  an exception escapes `exec`, `ps`, `ports` and `writeLogs` (only `InterruptedException` is
  caught, DefaultDockerCompose.java:137); the model has no such failure.
- Configuration.MissingEnvVariables: a Java map may hold a null value. With `DOCKER_TLS_VERIFY`
  mapped to null, `containsKey` still turns TLS on (RemoteEnvironmentValidator.java:67) and
  `isNullOrEmpty` counts the key as missing (line 58). The model's `map<string, string>` has no
  null values, so that case is not represented; "missing" means absent or empty.
- Execution.PortsStep: the message "No container with name '<service>' found" is taken literally.
  `Validate.validState(boolean, String, Object...)` formats its message with `String.format`, so a
  service name containing `%` may yield a different message or a formatting exception; service
  names are assumed free of `%`.
- The semantic-version class is replaced by a (major, minor, patch) triple without pre-release
  tags. The parser is taken to strip a suffix such as `rc1`.
- Logging (`log.debug`, `log.warn`), `container(name)` (DefaultDockerCompose.java:122-125) and the
  builder-based constructor (DefaultDockerCompose.java:50-56) only build objects or write logs.
- The static `validate(Map)` (RemoteEnvironmentValidator.java:70-72) only constructs a validator
  and calls `validate()`. `Configuration.Validate` models both.
- `EnvironmentVariables` is not part of this model. Its three constants are taken to be the
  variable names themselves.
- Configuration.MissingEnvVariables: the source collects the missing names into a hash set and
  joins them in that set's unspecified order. The model fixes them in the union's order (host,
  TLS flag, cert path). Which names appear, and that each appears once, is independent of the order.
- Execution.WriteLogsStep: on an interruption of the `logs` process the model reports nothing
  written. The source may already have copied output before `waitFor` was interrupted.
- Execution.LogsArguments: states `--follow` by position and length. It does not say that
  `--follow` is absent without following, because a container may itself be named `--follow`.
- Exit codes are unbounded integers. The source only compares them with 0 and prints them, so
  32-bit width plays no role.

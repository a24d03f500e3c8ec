/** The facade's behaviour in the situations the repository's unit tests set up, derived
    from the model for every executor that answers as those tests' mocks do. */
module DockerComposeScenarios {
  import opened Failures
  import opened Text
  import opened Versions
  import opened Execution

  const VERSION_1_5_6_OUTPUT := "docker-compose version 1.5.6, build 1ad8866"
  const VERSION_1_7_0_RC1_OUTPUT := "docker-compose version 1.7.0rc1, build 1ad8866"

  /** A failing `kill` is reported with the command and its exit code. */
  lemma KillFailureNamesCommandAndExitCode(c: Collaborators, output: string)
    requires c.execute(KILL) == Exited(1, output)
    ensures CommandStep(c, ThrowingOnError, KILL).result ==
      Err(DockerComposeExecutionException("'docker-compose kill' returned exit code 1" + OUTPUT_HEADER + output))
  {
    var r := CommandResult(ThrowingOnError, KILL, c.execute(KILL));
    assert r == Err(DockerComposeExecutionException(ThrowingMessage(1, output, KILL)));
    assert IntToString(1) == "1" by {
      assert NatToString(1) == [DigitChar(1)];
    }
    assert NonZeroExitErrorMessage(1, KILL) == "'docker-compose kill' returned exit code 1";
  }

  /** `down` on a compose that does not know the sub-command is not an error. */
  lemma DownOnOldComposeIsSwallowed(c: Collaborators)
    requires c.execute(DOWN) == Exited(1, "No such command: down")
    ensures CommandStep(c, SwallowingDownCommandDoesNotExist, DOWN).result == Ok(())
  {
    assert NO_SUCH_COMMAND <= "No such command: down";
  }

  /** `down` failing with no explanation is an error. */
  lemma DownFailingSilentlyThrows(c: Collaborators)
    requires c.execute(DOWN) == Exited(1, "")
    ensures CommandStep(c, SwallowingDownCommandDoesNotExist, DOWN).result ==
      Err(DockerComposeExecutionException(ThrowingMessage(1, "", DOWN)))
  {
    // the empty output is shorter than the marker, so it cannot report a missing command
    NotContainsLonger("", NO_SUCH_COMMAND);
  }

  /** With a 1.7.0 release candidate, `exec` issues `-v` and then the concatenated vector. */
  lemma ExecPassesConcatenatedArguments(c: Collaborators)
    requires c.execute(VERSION) == Exited(0, VERSION_1_7_0_RC1_OUTPUT)
    requires GreaterThanOrEqualTo(c.parseVersion(VERSION_1_7_0_RC1_OUTPUT), VERSION_1_7_0)
    ensures ExecStep(c, ["-d"], "container_1", ["ls"]).calls == [VERSION, ["exec", "-d", "container_1", "ls"]]
  {
    assert ExecArguments(["-d"], "container_1", ["ls"]) == ["exec", "-d", "container_1", "ls"];
  }

  /** Before 1.7 `exec` is refused and the exec vector is never issued. */
  lemma ExecRefusedBeforeOneSeven(c: Collaborators, options: seq<string>, containerName: string, arguments: seq<string>)
    requires c.execute(VERSION) == Exited(0, VERSION_1_5_6_OUTPUT)
    requires !GreaterThanOrEqualTo(c.parseVersion(VERSION_1_5_6_OUTPUT), VERSION_1_7_0)
    ensures ExecStep(c, options, containerName, arguments) ==
      Step([VERSION], Err(IllegalStateException(EXEC_VERSION_MESSAGE)))
  {
  }

  /** `exec` hands back exactly what the executed command printed. */
  lemma ExecReturnsCommandOutput(c: Collaborators, lsOutput: string)
    requires c.execute(VERSION) == Exited(0, VERSION_1_7_0_RC1_OUTPUT)
    requires GreaterThanOrEqualTo(c.parseVersion(VERSION_1_7_0_RC1_OUTPUT), VERSION_1_7_0)
    requires c.execute(["exec", "container_1", "ls", "-l"]) == Exited(0, lsOutput)
    ensures ExecStep(c, [], "container_1", ["ls", "-l"]).result == Ok(lsOutput)
  {
    assert ExecArguments([], "container_1", ["ls", "-l"]) == ["exec", "container_1", "ls", "-l"];
  }

  /** Before 1.7 the logs are fetched without `--follow` and copied to the output. */
  lemma LogsWithoutFollowBeforeOneSeven(c: Collaborators)
    requires c.execute(VERSION) == Exited(0, VERSION_1_5_6_OUTPUT)
    requires !GreaterThanOrEqualTo(c.parseVersion(VERSION_1_5_6_OUTPUT), VERSION_1_7_0)
    requires c.execute(["logs", "--no-color", "db"]) == Exited(0, "logs")
    ensures WriteLogsStep(c, "db") == LogsStep([VERSION, ["logs", "--no-color", "db"]], Ok(true), "logs")
  {
  }

  /** From 1.7.0 on the logs are followed. */
  lemma LogsFollowFromOneSeven(c: Collaborators)
    requires c.execute(VERSION) == Exited(0, "docker-compose version 1.7.0, build 1ad8866")
    requires GreaterThanOrEqualTo(c.parseVersion("docker-compose version 1.7.0, build 1ad8866"), VERSION_1_7_0)
    requires c.execute(["logs", "--no-color", "--follow", "db"]) == Exited(0, "logs")
    ensures WriteLogsStep(c, "db") == LogsStep([VERSION, ["logs", "--no-color", "--follow", "db"]], Ok(true), "logs")
  {
  }

  /** Any version from 1.7.0 on lets `exec` through: upgrading never closes the gate. */
  lemma ExecGateIsMonotone(v: Version, w: Version)
    requires GreaterThanOrEqualTo(v, VERSION_1_7_0)
    requires GreaterThanOrEqualTo(w, v)
    ensures GreaterThanOrEqualTo(w, VERSION_1_7_0)
  {
    GreaterThanOrEqualToIsTotalOrder(w, v, VERSION_1_7_0);
  }

  /** An empty `ps <service>` listing means the service has no container. */
  lemma PortsOfUnknownServiceFail(c: Collaborators)
    requires c.execute(["ps", "db"]) == Exited(0, "")
    ensures PortsStep(c, "db").result == Err(IllegalStateException("No container with name 'db' found"))
  {
    assert PortsArguments("db") == ["ps", "db"];
    assert "No container with name '" + "db" + "' found" == "No container with name 'db' found";
  }

  /** Through a fresh facade: the recorded calls are `-v` and then the exec vector, and the
      result is the exec command's outcome. */
  method ExecOnFreshFacade(c: Collaborators) returns (issued: seq<Argv>, r: Result<string>)
    requires c.execute(VERSION) == Exited(0, VERSION_1_7_0_RC1_OUTPUT)
    requires GreaterThanOrEqualTo(c.parseVersion(VERSION_1_7_0_RC1_OUTPUT), VERSION_1_7_0)
    ensures issued == [VERSION, ["exec", "-d", "container_1", "ls"]]
    ensures r == CommandResult(ThrowingOnError, ["exec", "-d", "container_1", "ls"],
                               c.execute(["exec", "-d", "container_1", "ls"]))
  {
    var compose := new DefaultDockerCompose(c);
    r := compose.Exec(["-d"], "container_1", ["ls"]);
    ExecPassesConcatenatedArguments(c);
    issued := compose.issued;
  }
}

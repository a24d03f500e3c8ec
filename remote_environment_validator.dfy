/** RemoteEnvironmentValidator: checks that a remote docker environment names the daemon
    and, when TLS verification is switched on, the certificates to use. */
module Configuration {
  import opened Failures
  import opened Text

  const DOCKER_HOST := "DOCKER_HOST"
  const DOCKER_TLS_VERIFY := "DOCKER_TLS_VERIFY"
  const DOCKER_CERT_PATH := "DOCKER_CERT_PATH"

  /** The variables TLS verification needs, in the order the immutable set lists them. */
  const SECURE_VARIABLES: seq<string> := [DOCKER_TLS_VERIFY, DOCKER_CERT_PATH]

  const MISSING_PREFIX := "Missing required environment variables: "
  const MISSING_SUFFIX :=
    ". Please run `docker-machine env <machine-name>` and ensure they are set on the DockerComposition."

  type Environment = map<string, string>

  /** `Strings.isNullOrEmpty(env.get(name))`: absent keys read as null. */
  predicate IsNullOrEmpty(env: Environment, name: string)
    ensures !IsNullOrEmpty(env, name) ==> name in env && |env[name]| > 0
  {
    name !in env || env[name] == ""
  }

  /** TLS is on as soon as the key is present, whatever its value. */
  predicate CertVerificationEnabled(env: Environment)
    ensures CertVerificationEnabled(env) <==> DOCKER_TLS_VERIFY in env.Keys
  {
    DOCKER_TLS_VERIFY in env
  }

  function SecureVariablesRequired(env: Environment): (names: seq<string>)
    ensures |names| > 0 <==> DOCKER_TLS_VERIFY in env
  {
    if CertVerificationEnabled(env) then SECURE_VARIABLES else []
  }

  /** `Sets.union({DOCKER_HOST}, secureVariablesRequired())`, in its iteration order. */
  function RequiredVariables(env: Environment): (names: seq<string>)
    ensures DOCKER_HOST in names
    ensures DOCKER_TLS_VERIFY in names <==> CertVerificationEnabled(env)
    ensures DOCKER_CERT_PATH in names <==> CertVerificationEnabled(env)
    ensures forall name :: name in names ==> name in [DOCKER_HOST, DOCKER_TLS_VERIFY, DOCKER_CERT_PATH]
  {
    [DOCKER_HOST] + SecureVariablesRequired(env)
  }

  /** The stream `filter` of the required names: those that are absent or empty. */
  function FilterMissing(env: Environment, names: seq<string>): (missing: seq<string>)
    ensures forall name :: name in missing <==> name in names && IsNullOrEmpty(env, name)
    ensures missing == [] <==> forall name :: name in names ==> !IsNullOrEmpty(env, name)
    decreases |names|
  {
    if |names| == 0 then []
    else if IsNullOrEmpty(env, names[0]) then [names[0]] + FilterMissing(env, names[1..])
    else FilterMissing(env, names[1..])
  }

  predicate Distinct(names: seq<string>) {
    forall i, j :: 0 <= i < j < |names| ==> names[i] != names[j]
  }

  lemma {:induction false} FilterMissingDistinct(env: Environment, names: seq<string>)
    requires Distinct(names)
    ensures Distinct(FilterMissing(env, names))
    decreases |names|
  {
    if |names| > 0 {
      assert Distinct(names[1..]) by {
        forall i, j | 0 <= i < j < |names[1..]| ensures names[1..][i] != names[1..][j] {
          assert names[1..][i] == names[i + 1] && names[1..][j] == names[j + 1];
        }
      }
      FilterMissingDistinct(env, names[1..]);
      assert names[0] !in names[1..] by {
        forall k | 0 <= k < |names[1..]| ensures names[1..][k] != names[0] {
          assert names[1..][k] == names[k + 1];
        }
      }
    }
  }

  /** `getMissingEnvVariables()`: the missing required names, each listed once. Java collects
      them into a hash set, whose order it leaves unspecified; the model keeps the order in
      which the union lists them. */
  function MissingEnvVariables(env: Environment): (missing: seq<string>)
    ensures Distinct(missing)
    ensures DOCKER_HOST in missing <==> IsNullOrEmpty(env, DOCKER_HOST)
    ensures DOCKER_TLS_VERIFY in missing <==> DOCKER_TLS_VERIFY in env && env[DOCKER_TLS_VERIFY] == ""
    ensures DOCKER_CERT_PATH in missing <==> CertVerificationEnabled(env) && IsNullOrEmpty(env, DOCKER_CERT_PATH)
    ensures forall name :: name in missing ==> name in RequiredVariables(env)
  {
    FilterMissingDistinct(env, RequiredVariables(env));
    FilterMissing(env, RequiredVariables(env))
  }

  /** `joining(", ", MISSING_PREFIX, MISSING_SUFFIX)` over the missing names. */
  function MissingVariablesMessage(missing: seq<string>): (message: string)
    ensures MISSING_PREFIX <= message
    ensures |message| >= |MISSING_SUFFIX| && message[|message| - |MISSING_SUFFIX|..] == MISSING_SUFFIX
  {
    MISSING_PREFIX + Join(missing, ", ") + MISSING_SUFFIX
  }

  /** `validate()` (and the static `validate(Map)`, which builds a validator and calls it):
      the environment itself when nothing is missing, otherwise one failure naming every
      missing variable. */
  function Validate(env: Environment): (r: Result<Environment>)
    ensures r.Ok? <==> |MissingEnvVariables(env)| == 0
    ensures r.Ok? ==> r.value == env
    ensures r.Err? ==> r.failure == IllegalStateException(MissingVariablesMessage(MissingEnvVariables(env)))
  {
    var missing := MissingEnvVariables(env);
    if |missing| == 0 then Ok(env) else Err(IllegalStateException(MissingVariablesMessage(missing)))
  }

  /** The failure message starts with the fixed prefix and mentions each missing name. */
  lemma ValidateNamesEveryMissingVariable(env: Environment, name: string)
    requires name in MissingEnvVariables(env)
    ensures Validate(env).Err?
    ensures MISSING_PREFIX <= Validate(env).failure.message
    ensures Contains(Validate(env).failure.message, name)
  {
    var missing := MissingEnvVariables(env);
    var k :| 0 <= k < |missing| && missing[k] == name;
    JoinContainsEach(missing, ", ", k);
    ContainsInside(MISSING_PREFIX, Join(missing, ", "), MISSING_SUFFIX, name);
  }

  /** An environment without a usable DOCKER_HOST is rejected, and the message says so. */
  lemma HostIsRequired(env: Environment)
    requires IsNullOrEmpty(env, DOCKER_HOST)
    ensures Validate(env).Err?
    ensures Contains(Validate(env).failure.message, DOCKER_HOST)
  {
    ValidateNamesEveryMissingVariable(env, DOCKER_HOST);
  }

  /** With the TLS key present, whatever its value, a missing cert path is rejected by name. */
  lemma CertPathIsRequiredWithTls(env: Environment)
    requires DOCKER_TLS_VERIFY in env
    requires IsNullOrEmpty(env, DOCKER_CERT_PATH)
    ensures Validate(env).Err?
    ensures Contains(Validate(env).failure.message, DOCKER_CERT_PATH)
  {
    ValidateNamesEveryMissingVariable(env, DOCKER_CERT_PATH);
  }

  /** Without the TLS key only the host matters. */
  lemma WithoutTlsOnlyHostIsRequired(env: Environment)
    requires DOCKER_TLS_VERIFY !in env
    ensures Validate(env) == (if IsNullOrEmpty(env, DOCKER_HOST)
                              then Err(IllegalStateException(MissingVariablesMessage([DOCKER_HOST])))
                              else Ok(env))
  {
  }

  /** With TLS on and all three variables non-empty the environment passes unchanged. */
  lemma AllVariablesSetWithTlsPasses(env: Environment)
    requires !IsNullOrEmpty(env, DOCKER_HOST)
    requires !IsNullOrEmpty(env, DOCKER_TLS_VERIFY)
    requires !IsNullOrEmpty(env, DOCKER_CERT_PATH)
    ensures Validate(env) == Ok(env)
  {
  }

  /** Keys other than the three the validator knows never change its verdict. */
  lemma ExtraVariablesNeverMatter(env: Environment, name: string, value: string)
    requires name != DOCKER_HOST && name != DOCKER_TLS_VERIFY && name != DOCKER_CERT_PATH
    ensures Validate(env[name := value]).Ok? == Validate(env).Ok?
  {
  }
}

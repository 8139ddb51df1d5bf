/** The server's runtime settings and their validation from the process
    environment (src/bigip_mcp_server/config.py). The environment is a map from
    variable names to values; a name that is not in the map is unset. */
module Config {
  import opened Wrappers
  import opened Strings

  const HostVar := "BIGIP_HOST"
  const TokenVar := "BIGIP_TOKEN"
  const PartitionVar := "BIGIP_PARTITION"
  const VerifyVar := "BIGIP_VERIFY_SSL"

  /** The two variables that must be set, in the order they are reported. */
  const Required: seq<string> := [HostVar, TokenVar]

  /** The values of `BIGIP_VERIFY_SSL` that switch certificate checks off. */
  const FalseWords: set<string> := {"0", "false", "False"}

  /** A directly constructed `Settings` lives in partition `Common` and checks
      certificates unless told otherwise. */
  datatype Settings = Settings(host: string, token: string, partition: string := "Common", verifySsl: bool := true)

  /** `os.getenv(name)` is truthy: the variable is set and not empty. */
  predicate Given(env: map<string, string>, name: string) {
    name in env && env[name] != []
  }

  /** The required variables that are unset or empty, in the order of `Required`. */
  function Missing(env: map<string, string>): (missing: seq<string>)
    ensures forall n :: n in missing <==> n in Required && !Given(env, n)
    ensures |missing| <= |Required|
    ensures |missing| == 2 ==> missing == Required
  {
    (if Given(env, HostVar) then [] else [HostVar]) + (if Given(env, TokenVar) then [] else [TokenVar])
  }

  /** `Settings.from_env()`: fails, naming the missing variables, unless both
      host and token are given; otherwise builds the settings. */
  function FromEnv(env: map<string, string>): (r: Result<Settings, seq<string>>)
    ensures r.Failure? <==> !Given(env, HostVar) || !Given(env, TokenVar)
    ensures r.Failure? ==> r.error != [] && r.error == Missing(env)
    ensures r.Success? ==>
              && |r.value.host| <= |env[HostVar]|
              && r.value.host == env[HostVar][..|r.value.host|]
              && (forall i :: |r.value.host| <= i < |env[HostVar]| ==> env[HostVar][i] == '/')
              && (r.value.host == [] || r.value.host[|r.value.host| - 1] != '/')
              && r.value.token == env[TokenVar]
              && r.value.partition == (if PartitionVar in env then env[PartitionVar] else "Common")
              && (r.value.verifySsl <==> !(VerifyVar in env && env[VerifyVar] in FalseWords))
  {
    if !Given(env, HostVar) || !Given(env, TokenVar) then
      Failure(Missing(env))
    else
      Success(Settings(
        host := TrimEndChar(env[HostVar], '/'),
        token := env[TokenVar],
        partition := GetOr(env, PartitionVar, "Common"),
        verifySsl := GetOr(env, VerifyVar, "1") !in FalseWords))
  }

  const MissingPrefix := "Missing required BIG-IP environment variables: "

  /** The text of the `RuntimeError` raised for a failed validation: the
      fixed prefix, then every missing name. */
  function MissingMessage(missing: seq<string>): (m: string)
    ensures StartsWith(m, MissingPrefix)
    ensures forall i :: 0 <= i < |missing| ==> Occurs(missing[i], m[|MissingPrefix|..])
  {
    var m := MissingPrefix + Join(missing, ", ");
    assert m[..|MissingPrefix|] == MissingPrefix;
    assert m[|MissingPrefix|..] == Join(missing, ", ");
    forall i | 0 <= i < |missing| ensures Occurs(missing[i], m[|MissingPrefix|..]) {
      PieceOccursInJoin(missing, ", ", i);
    }
    m
  }

  /** An environment that describes the given settings. */
  function EnvOf(s: Settings): map<string, string> {
    map[HostVar := s.host, TokenVar := s.token, PartitionVar := s.partition,
        VerifyVar := if s.verifySsl then "1" else "0"]
  }

  /** Settings whose host and token are given and whose host carries no
      trailing slash read back unchanged from their own environment. */
  lemma FromEnvOfSettings(s: Settings)
    requires s.host != [] && s.host[|s.host| - 1] != '/'
    requires s.token != []
    ensures FromEnv(EnvOf(s)) == Success(s)
  {
    assert "1" !in FalseWords;
  }

  /** Variables other than the four read leave the outcome unchanged. */
  lemma FromEnvIgnoresOthers(env: map<string, string>, name: string, value: string)
    requires name !in {HostVar, TokenVar, PartitionVar, VerifyVar}
    ensures FromEnv(env[name := value]) == FromEnv(env)
  {
    var env' := env[name := value];
    assert Given(env', HostVar) == Given(env, HostVar);
    assert Given(env', TokenVar) == Given(env, TokenVar);
    assert Missing(env') == Missing(env);
  }

  /** The host is checked before its slashes are cut, so a host made of
      slashes only is accepted and stored empty. */
  lemma SlashHostIsAccepted(token: string)
    requires token != []
    ensures FromEnv(map[HostVar := "//", TokenVar := token]) == Success(Settings("", token))
  {
    var env := map[HostVar := "//", TokenVar := token];
    assert TrimEndChar(env[HostVar], '/') == "";
    assert GetOr(env, VerifyVar, "1") == "1";
  }

  /** Normalising an accepted host again changes nothing. */
  lemma HostNormalisedOnce(env: map<string, string>)
    requires FromEnv(env).Success?
    ensures TrimEndChar(FromEnv(env).value.host, '/') == FromEnv(env).value.host
  {
  }

  /** A directly constructed `Settings` takes the documented defaults. */
  lemma SettingsDefaults(host: string, token: string)
    ensures Settings(host, token).partition == "Common"
    ensures Settings(host, token).verifySsl
  {
  }
}

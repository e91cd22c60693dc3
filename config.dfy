/**
 * The `Config` class of app/config.py: attributes read once from the process
 * environment (with their defaults), the `ONE_DAY` constant, and the
 * start-up check `Config.datavalidate` for required variables.
 */
module Config {
  import opened Wrappers
  import Text
  import Sequences

  /** The process environment, `os.environ` after dotenv loading. */
  type Environment = map<string, string>

  /** `ONE_DAY`: seconds a delivery id stays in the dedup cache. */
  const OneDay: nat := 60 * 60 * 24

  const DefaultProjectKey := "GIH"
  const DefaultLogFile := "logs/github_jira_automation.log"
  const DefaultPort := 8000
  const DefaultRedisHost := "redis_service"
  const DefaultRedisPort := 6379

  const SecretVariable := "GITHUB_WEBHOOK_SECRET"
  const DefaultSecret := "enter_secret_key"
  /** The one key that the secret lookup of app/config.py:9 really asks for. */
  const MalformedSecretKey := "GITHUB_WEBHOOK_SECRET\", \"enter_secret_key"

  /** The variables `datavalidate` insists on, in its order; `JIRA_USER` is not among them. */
  const Required: seq<string> := ["GITHUB_WEBHOOK_SECRET", "GITHUB_TOKEN", "JIRA_SERVER", "JIRA_API_TOKEN"]
  const MissingMessagePrefix := "Missing required environment variable(s): "

  /** `os.environ.get(key)`. */
  function Get(env: Environment, key: string): Option<string> {
    if key in env then Some(env[key]) else None
  }

  /** `os.environ.get(key, default)`. */
  function GetOr(env: Environment, key: string, default: string): string {
    if key in env then env[key] else default
  }

  /** A port: the integer default, or the environment's text (which `int()` would parse). */
  datatype PortSetting = Default(number: int) | FromEnvironment(text: string)

  function PortFrom(env: Environment, key: string, default: int): PortSetting {
    if key in env then FromEnvironment(env[key]) else Default(default)
  }

  /** The class attributes of `Config`. */
  datatype Settings = Settings(
    secret: Option<string>,
    githubToken: Option<string>,
    jiraServer: Option<string>,
    jiraUser: Option<string>,
    jiraApiToken: Option<string>,
    projectKey: string,
    logFile: string,
    debug: bool,
    port: PortSetting,
    redisHost: string,
    redisPort: PortSetting)

  /** The secret as app/config.py:9 reads it: from a variable named by one malformed string. */
  function SecretAsWritten(env: Environment): Option<string> {
    Get(env, MalformedSecretKey)
  }

  /** The secret as evidently intended: `GITHUB_WEBHOOK_SECRET`, defaulting to `enter_secret_key`. */
  function Secret(env: Environment): string {
    GetOr(env, SecretVariable, DefaultSecret)
  }

  /** The attributes of `Config`, computed from the environment (the secret lookup corrected). */
  function Load(env: Environment): Settings {
    Settings(
      secret := Some(Secret(env)),
      githubToken := Get(env, "GITHUB_TOKEN"),
      jiraServer := Get(env, "JIRA_SERVER"),
      jiraUser := Get(env, "JIRA_USER"),
      jiraApiToken := Get(env, "JIRA_API_TOKEN"),
      projectKey := GetOr(env, "JIRA_PROJECT_KEY", DefaultProjectKey),
      logFile := GetOr(env, "LOG_FILE", DefaultLogFile),
      debug := GetOr(env, "FLASK_DEBUG", "False") == "True",
      port := PortFrom(env, "PORT", DefaultPort),
      redisHost := GetOr(env, "REDIS_HOST", DefaultRedisHost),
      redisPort := PortFrom(env, "REDIS_PORT", DefaultRedisPort))
  }

  /** `os.environ.get(name)` is truthy: present and not empty. */
  predicate IsSet(env: Environment, name: string) {
    name in env && env[name] != ""
  }

  /** The test of the comprehension at app/config.py:37, `not os.environ.get(var)`. */
  function Unset(env: Environment): string -> bool {
    name => !IsSet(env, name)
  }

  /** `missing_env_var`: the required names that are absent or empty. */
  function MissingVariables(env: Environment): seq<string> {
    Sequences.Filter(Required, Unset(env))
  }

  /** `Config.datavalidate()`: passes, or fails with the `EnvironmentError` message. */
  function Datavalidate(env: Environment): (r: Outcome<string>)
    ensures r.Pass? <==> forall name :: name in Required ==> IsSet(env, name)
  {
    var missing := MissingVariables(env);
    if missing == [] then Pass
    else
      assert missing[0] in missing;
      Fail(MissingMessagePrefix + Text.Join(missing, ','))
  }

  lemma OneDayIsTwentyFourHours()
    ensures OneDay == 86400
  {
  }

  /** With nothing set, every attribute that has a default takes it. */
  lemma DefaultsWhenUnset(env: Environment)
    requires "JIRA_PROJECT_KEY" !in env && "LOG_FILE" !in env && "FLASK_DEBUG" !in env
    requires "PORT" !in env && "REDIS_HOST" !in env && "REDIS_PORT" !in env
    ensures Load(env).projectKey == "GIH"
    ensures Load(env).logFile == "logs/github_jira_automation.log"
    ensures !Load(env).debug
    ensures Load(env).port == Default(8000)
    ensures Load(env).redisHost == "redis_service"
    ensures Load(env).redisPort == Default(6379)
  {
  }

  /** Debug mode is on exactly when `FLASK_DEBUG` is the text `True`; `true` or `1` do not count. */
  lemma DebugOnlyForExactTrue(env: Environment)
    ensures Load(env).debug <==> "FLASK_DEBUG" in env && env["FLASK_DEBUG"] == "True"
    ensures "FLASK_DEBUG" in env && env["FLASK_DEBUG"] in {"true", "1", "TRUE"} ==> !Load(env).debug
  {
  }

  /** A name is reported missing exactly when it is required and absent or empty. */
  lemma MissingExactly(env: Environment, name: string)
    ensures name in MissingVariables(env) <==> name in Required && !IsSet(env, name)
  {
  }

  /** Missing names are reported in the order of the required list. */
  lemma MissingInRequiredOrder(env: Environment)
    ensures Sequences.IsSubsequence(MissingVariables(env), Required)
  {
    Sequences.FilterIsSubsequence(Required, Unset(env));
  }

  /** The error message names the missing variables, comma-separated, and can be split back into them. */
  lemma ValidationMessageListsMissing(env: Environment)
    requires Datavalidate(env).Fail?
    ensures var message := Datavalidate(env).error;
      && message[..|MissingMessagePrefix|] == MissingMessagePrefix
      && Text.Split(message[|MissingMessagePrefix|..], ',') == MissingVariables(env)
  {
    var missing := MissingVariables(env);
    var message := Datavalidate(env).error;
    assert missing != [];
    assert message == MissingMessagePrefix + Text.Join(missing, ',');
    RequiredNamesHaveNoComma();
    forall name | name in missing
      ensures ',' !in name
    {
      MissingExactly(env, name);
    }
    Text.JoinSplit(missing, ',');
  }

  lemma RequiredNamesHaveNoComma()
    ensures forall name :: name in Required ==> ',' !in name
  {
  }

  /** Environments that agree on which required names are set validate alike. */
  lemma OnlyRequiredMatter(env1: Environment, env2: Environment)
    requires forall name :: name in Required ==> IsSet(env1, name) == IsSet(env2, name)
    ensures MissingVariables(env1) == MissingVariables(env2)
    ensures Datavalidate(env1) == Datavalidate(env2)
  {
    forall name | name in Required
      ensures Unset(env1)(name) == Unset(env2)(name)
    {
    }
    Sequences.FilterCongruent(Required, Unset(env1), Unset(env2));
  }

  /** `JIRA_USER` is optional: setting, changing or removing it never changes the verdict. */
  lemma JiraUserNotRequired(env: Environment, value: string)
    ensures Datavalidate(env["JIRA_USER" := value]) == Datavalidate(env)
    ensures Datavalidate(env - {"JIRA_USER"}) == Datavalidate(env)
  {
    assert "JIRA_USER" !in Required;
    OnlyRequiredMatter(env["JIRA_USER" := value], env);
    OnlyRequiredMatter(env - {"JIRA_USER"}, env);
  }

  /** Once validation passes, the (corrected) secret is the configured, non-empty one. */
  lemma ValidatedSecretIsConfigured(env: Environment)
    requires Datavalidate(env).Pass?
    ensures SecretVariable in env && env[SecretVariable] != ""
    ensures Load(env).secret == Some(env[SecretVariable])
    ensures Load(env).jiraServer.Some? && Load(env).jiraServer.value != ""
  {
    assert SecretVariable in Required;
    assert "JIRA_SERVER" in Required;
  }

  /**
   * As written, the secret lookup ignores `GITHUB_WEBHOOK_SECRET`: an
   * environment that sets exactly the required variables passes validation
   * and still leaves the secret unset.
   */
  lemma SecretAsWrittenUnsetAfterValidation()
    ensures var env := map["GITHUB_WEBHOOK_SECRET" := "s3cret", "GITHUB_TOKEN" := "t",
                           "JIRA_SERVER" := "https://jira.example", "JIRA_API_TOKEN" := "j"];
      && Datavalidate(env).Pass?
      && SecretAsWritten(env) == None
      && Load(env).secret == Some("s3cret")
  {
    var env := map["GITHUB_WEBHOOK_SECRET" := "s3cret", "GITHUB_TOKEN" := "t",
                   "JIRA_SERVER" := "https://jira.example", "JIRA_API_TOKEN" := "j"];
    assert forall name :: name in Required ==> IsSet(env, name);
    assert MalformedSecretKey != "GITHUB_WEBHOOK_SECRET";
    assert MalformedSecretKey !in env;
  }
}

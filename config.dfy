/**
 * Orchestrator configuration (orchestrator/config.py): the dataclass with its defaults,
 * construction from the environment or from a YAML file whose values the environment
 * overrides, the choice between the two, and validation.
 *
 * The environment is a map from variable name to value; a YAML document is the JSON value
 * `yaml.safe_load` returns for it; the file system is a map from path to document.
 */
module Config {
  import opened Wrappers
  import opened Json
  import Text

  datatype OrchestratorConfig = OrchestratorConfig(
    linearApiKey: string,
    linearTeamId: Option<string>,
    repoUrl: string,
    baseBranch: string,
    defaultPlanner: string,
    defaultExecutor: string,
    dockerImage: string,
    workspaceBase: string,
    workflowsDir: string,
    dbPath: string,
    planningTimeout: int,
    executionTimeout: int,
    containerCheckInterval: int,
    slackWebhookUrl: Option<string>,
    notifyOnBlock: bool,
    notifyOnComplete: bool,
    githubToken: Option<string>)

  /** The review settings `WorkflowManager` reads from its configuration (`review_enabled`,
      `max_review_iterations`, `default_reviewer`); config.py itself declares none of them. */
  datatype ReviewSettings = ReviewSettings(reviewEnabled: bool, maxReviewIterations: int, defaultReviewer: string)

  type Env = map<string, string>

  /** `os.getenv(name)`. */
  function GetEnv(env: Env, name: string): Option<string> {
    if name in env then Some(env[name]) else None
  }

  /** `os.getenv(name, default)`. */
  function GetEnvOr(env: Env, name: string, default: string): (r: string)
    ensures name in env ==> r == env[name]
    ensures name !in env ==> r == default
  {
    if name in env then env[name] else default
  }

  /** The dataclass with only `linear_api_key` given: every other field at its default. */
  function Defaults(apiKey: string): (c: OrchestratorConfig)
    ensures c.linearApiKey == apiKey && c.linearTeamId.None? && c.repoUrl == ""
    ensures c.baseBranch == "main" && c.defaultPlanner == "codex" && c.defaultExecutor == "claude"
    ensures c.planningTimeout == 30 && c.executionTimeout == 120 && c.containerCheckInterval == 5
    ensures c.notifyOnBlock && c.notifyOnComplete && c.githubToken.None? && c.slackWebhookUrl.None?
    ensures c.dockerImage == "llm-docker-claude-code:latest" && c.workspaceBase == "/workspace"
    ensures c.workflowsDir == "./workflows" && c.dbPath == "./workflow.db"
  {
    OrchestratorConfig(apiKey, None, "", "main", "codex", "claude",
                       "llm-docker-claude-code:latest", "/workspace", "./workflows", "./workflow.db",
                       30, 120, 5, None, true, true, None)
  }

  /** `from_env`: eight variables read, each falling back to the dataclass default; the
      fields with no variable keep their defaults. */
  function FromEnv(env: Env): (c: OrchestratorConfig)
    ensures c.linearApiKey == GetEnvOr(env, "LINEAR_API_KEY", "")
    ensures c.linearTeamId == GetEnv(env, "LINEAR_TEAM_ID")
    ensures c.repoUrl == GetEnvOr(env, "GIT_REPO_URL", "")
    ensures c.baseBranch == GetEnvOr(env, "GIT_BASE_BRANCH", "main")
    ensures c.defaultPlanner == GetEnvOr(env, "DEFAULT_PLANNER", "codex")
    ensures c.defaultExecutor == GetEnvOr(env, "DEFAULT_EXECUTOR", "claude")
    ensures c.githubToken == GetEnv(env, "GITHUB_TOKEN")
    ensures c.slackWebhookUrl == GetEnv(env, "SLACK_WEBHOOK_URL")
    ensures c.(linearApiKey := "", linearTeamId := None, repoUrl := "", baseBranch := "main",
               defaultPlanner := "codex", defaultExecutor := "claude", githubToken := None,
               slackWebhookUrl := None) == Defaults("")
  {
    Defaults(GetEnvOr(env, "LINEAR_API_KEY", "")).(
      linearTeamId := GetEnv(env, "LINEAR_TEAM_ID"),
      repoUrl := GetEnvOr(env, "GIT_REPO_URL", ""),
      baseBranch := GetEnvOr(env, "GIT_BASE_BRANCH", "main"),
      defaultPlanner := GetEnvOr(env, "DEFAULT_PLANNER", "codex"),
      defaultExecutor := GetEnvOr(env, "DEFAULT_EXECUTOR", "claude"),
      githubToken := GetEnv(env, "GITHUB_TOKEN"),
      slackWebhookUrl := GetEnv(env, "SLACK_WEBHOOK_URL"))
  }

  const ConfigKeys: set<string> := {
    "linear_api_key", "linear_team_id", "repo_url", "base_branch", "default_planner",
    "default_executor", "docker_image", "workspace_base", "workflows_dir", "db_path",
    "planning_timeout", "execution_timeout", "container_check_interval", "slack_webhook_url",
    "notify_on_block", "notify_on_complete", "github_token"}

  /** `data.get(key, default)`. */
  function Get(data: map<string, Json>, key: string, default: Json): Json {
    if key in data then data[key] else default
  }

  /** Lines 54-56 of from_yaml: each of the three variables, when set, replaces the file's
      value; otherwise the file's value stays (the API key defaulting to ""). */
  function WithEnvOverrides(data: map<string, Json>, env: Env): (d: map<string, Json>)
    ensures d.Keys == data.Keys + {"linear_api_key", "github_token", "slack_webhook_url"}
    ensures forall k :: k in data && k !in {"linear_api_key", "github_token", "slack_webhook_url"} ==> d[k] == data[k]
  {
    data["linear_api_key" := if "LINEAR_API_KEY" in env then JStr(env["LINEAR_API_KEY"]) else Get(data, "linear_api_key", JStr(""))]
        ["github_token" := if "GITHUB_TOKEN" in env then JStr(env["GITHUB_TOKEN"]) else Get(data, "github_token", JNull)]
        ["slack_webhook_url" := if "SLACK_WEBHOOK_URL" in env then JStr(env["SLACK_WEBHOOK_URL"]) else Get(data, "slack_webhook_url", JNull)]
  }

  function DecodeStrings(d: map<string, Json>): Result<(string, Option<string>, string, string, string, string)> {
    var apiKey :- ReqString(d, "linear_api_key");
    var teamId :- OptString(d, "linear_team_id");
    var repoUrl :- StringOr(d, "repo_url", "");
    var baseBranch :- StringOr(d, "base_branch", "main");
    var planner :- StringOr(d, "default_planner", "codex");
    var executor :- StringOr(d, "default_executor", "claude");
    Ok((apiKey, teamId, repoUrl, baseBranch, planner, executor))
  }

  function DecodePaths(d: map<string, Json>): Result<(string, string, string, string)> {
    var image :- StringOr(d, "docker_image", "llm-docker-claude-code:latest");
    var workspace :- StringOr(d, "workspace_base", "/workspace");
    var workflowsDir :- StringOr(d, "workflows_dir", "./workflows");
    var dbPath :- StringOr(d, "db_path", "./workflow.db");
    Ok((image, workspace, workflowsDir, dbPath))
  }

  function DecodeRest(d: map<string, Json>): Result<(int, int, int, Option<string>, bool, bool, Option<string>)> {
    var planningTimeout :- IntOr(d, "planning_timeout", 30);
    var executionTimeout :- IntOr(d, "execution_timeout", 120);
    var interval :- IntOr(d, "container_check_interval", 5);
    var slack :- OptString(d, "slack_webhook_url");
    var onBlock :- BoolOr(d, "notify_on_block", true);
    var onComplete :- BoolOr(d, "notify_on_complete", true);
    var token :- OptString(d, "github_token");
    Ok((planningTimeout, executionTimeout, interval, slack, onBlock, onComplete, token))
  }

  /** `cls(**data)`: an unknown key fails (TypeError), a missing key takes the default. */
  function Construct(d: map<string, Json>): Result<OrchestratorConfig> {
    if !(d.Keys <= ConfigKeys) then Err("unexpected keyword argument")
    else
      var s :- DecodeStrings(d);
      var p :- DecodePaths(d);
      var t :- DecodeRest(d);
      Ok(OrchestratorConfig(s.0, s.1, s.2, s.3, s.4, s.5, p.0, p.1, p.2, p.3,
                            t.0, t.1, t.2, t.3, t.4, t.5, t.6))
  }

  const OptionalTextKeys: set<string> := {"linear_team_id", "slack_webhook_url", "github_token"}
  const IntKeys: set<string> := {"planning_timeout", "execution_timeout", "container_check_interval"}
  const BoolKeys: set<string> := {"notify_on_block", "notify_on_complete"}

  /** The value `key` holds is of the type its field's reader accepts: a string or null for the
      three optional texts, an integer for the timeouts, a boolean for the switches, a string
      for every other field. */
  predicate FieldTyped(key: string, v: Json) {
    if key in OptionalTextKeys then v.JStr? || v.JNull?
    else if key in IntKeys then v.JInt?
    else if key in BoolKeys then v.JBool?
    else v.JStr?
  }

  /** Every value present is of its field's type. */
  predicate WellTyped(d: map<string, Json>) {
    forall k :: k in d ==> FieldTyped(k, d[k])
  }

  /** `from_yaml` on the document the file holds; a document that is not a mapping fails
      (Python raises on `data[...] = ...`). A mapping loads exactly when it has no unknown key
      and, after the environment's overrides, every value is of its field's type. */
  function FromYaml(doc: Json, env: Env): (r: Result<OrchestratorConfig>)
    ensures !doc.JObj? ==> r.Err?
    ensures doc.JObj? && !(doc.fields.Keys <= ConfigKeys) ==> r.Err?
    ensures doc.JObj? ==> (r.Ok? <==> doc.fields.Keys <= ConfigKeys && WellTyped(WithEnvOverrides(doc.fields, env)))
  {
    if !doc.JObj? then Err("configuration file is not a mapping")
    else
      var d := WithEnvOverrides(doc.fields, env);
      ConstructTyped(d);
      Construct(d)
  }

  /** Once the keys are known, construction succeeds exactly on well-typed values. */
  lemma ConstructTyped(d: map<string, Json>)
    requires "linear_api_key" in d
    ensures d.Keys <= ConfigKeys ==> (Construct(d).Ok? <==> WellTyped(d))
  {
    if d.Keys <= ConfigKeys {
      if WellTyped(d) {
        TypedDecodes(d);
      } else {
        var k :| k in d && !FieldTyped(k, d[k]);
        assert k in ConfigKeys;
        assert DecodeStrings(d).Err? || DecodePaths(d).Err? || DecodeRest(d).Err?;
      }
    }
  }

  lemma TypedDecodes(d: map<string, Json>)
    requires "linear_api_key" in d && WellTyped(d)
    ensures DecodeStrings(d).Ok? && DecodePaths(d).Ok? && DecodeRest(d).Ok?
  {
    TypedStrings(d);
    TypedPaths(d);
    TypedRest(d);
  }

  lemma TypedStrings(d: map<string, Json>)
    requires "linear_api_key" in d && WellTyped(d)
    ensures DecodeStrings(d).Ok?
  {
    assert FieldTyped("linear_api_key", d["linear_api_key"]);
  }

  lemma TypedPaths(d: map<string, Json>)
    requires WellTyped(d)
    ensures DecodePaths(d).Ok?
  {
  }

  lemma TypedRest(d: map<string, Json>)
    requires WellTyped(d)
    ensures DecodeRest(d).Ok?
  {
  }

  /** A file whose keys are known and whose values are all of their fields' types always loads,
      whatever the environment holds. */
  lemma {:induction false} WellTypedFileLoads(data: map<string, Json>, env: Env)
    requires data.Keys <= ConfigKeys && WellTyped(data)
    ensures FromYaml(JObj(data), env).Ok?
  {
    var d := WithEnvOverrides(data, env);
    forall k | k in d ensures FieldTyped(k, d[k]) {
      if k !in {"linear_api_key", "github_token", "slack_webhook_url"} {
        assert d[k] == data[k];
      }
    }
  }

  /** Environment over file: a set LINEAR_API_KEY, GITHUB_TOKEN or SLACK_WEBHOOK_URL wins over
      the file's value; an unset one leaves the file's value, or the default when the file has none. */
  lemma {:induction false} EnvOverridesFile(data: map<string, Json>, env: Env)
    requires FromYaml(JObj(data), env).Ok?
    ensures var c := FromYaml(JObj(data), env).value;
      && ("LINEAR_API_KEY" in env ==> c.linearApiKey == env["LINEAR_API_KEY"])
      && ("LINEAR_API_KEY" !in env && "linear_api_key" in data ==> data["linear_api_key"] == JStr(c.linearApiKey))
      && ("LINEAR_API_KEY" !in env && "linear_api_key" !in data ==> c.linearApiKey == "")
      && ("GITHUB_TOKEN" in env ==> c.githubToken == Some(env["GITHUB_TOKEN"]))
      && ("GITHUB_TOKEN" !in env && "github_token" in data ==> OptStringOf(data["github_token"]) == Ok(c.githubToken))
      && ("GITHUB_TOKEN" !in env && "github_token" !in data ==> c.githubToken.None?)
      && ("SLACK_WEBHOOK_URL" in env ==> c.slackWebhookUrl == Some(env["SLACK_WEBHOOK_URL"]))
      && ("SLACK_WEBHOOK_URL" !in env && "slack_webhook_url" in data ==> OptStringOf(data["slack_webhook_url"]) == Ok(c.slackWebhookUrl))
      && ("SLACK_WEBHOOK_URL" !in env && "slack_webhook_url" !in data ==> c.slackWebhookUrl.None?)
  {
    var d := WithEnvOverrides(data, env);
    assert Construct(d).Ok?;
    var s := DecodeStrings(d);
    var t := DecodeRest(d);
    assert s.Ok? && t.Ok?;
  }

  /** The value field `key` takes when `cls(**data)` is given `data`: the entry when there is one,
      the dataclass default otherwise. */
  predicate FromFileOr(data: map<string, Json>, key: string, value: Json, default: Json) {
    (key in data ==> data[key] == value) && (key !in data ==> value == default)
  }

  /** Fields the environment does not override keep the file's value, or the default: the
      text fields. */
  lemma {:induction false} FileValuesKept(data: map<string, Json>, env: Env)
    requires FromYaml(JObj(data), env).Ok?
    ensures var c := FromYaml(JObj(data), env).value;
      && FromFileOr(data, "repo_url", JStr(c.repoUrl), JStr(""))
      && FromFileOr(data, "base_branch", JStr(c.baseBranch), JStr("main"))
      && FromFileOr(data, "default_planner", JStr(c.defaultPlanner), JStr("codex"))
      && FromFileOr(data, "default_executor", JStr(c.defaultExecutor), JStr("claude"))
      && ("linear_team_id" in data ==> OptStringOf(data["linear_team_id"]) == Ok(c.linearTeamId))
      && ("linear_team_id" !in data ==> c.linearTeamId.None?)
  {
    var d := WithEnvOverrides(data, env);
    assert Construct(d).Ok?;
    assert DecodeStrings(d).Ok?;
  }

  /** The same for the image and the three paths. */
  lemma {:induction false} FilePathsKept(data: map<string, Json>, env: Env)
    requires FromYaml(JObj(data), env).Ok?
    ensures var c := FromYaml(JObj(data), env).value;
      && FromFileOr(data, "docker_image", JStr(c.dockerImage), JStr("llm-docker-claude-code:latest"))
      && FromFileOr(data, "workspace_base", JStr(c.workspaceBase), JStr("/workspace"))
      && FromFileOr(data, "workflows_dir", JStr(c.workflowsDir), JStr("./workflows"))
      && FromFileOr(data, "db_path", JStr(c.dbPath), JStr("./workflow.db"))
  {
    var d := WithEnvOverrides(data, env);
    assert Construct(d).Ok?;
    assert DecodePaths(d).Ok?;
  }

  /** The same for the three timeouts. */
  lemma {:induction false} FileTimeoutsKept(data: map<string, Json>, env: Env)
    requires FromYaml(JObj(data), env).Ok?
    ensures var c := FromYaml(JObj(data), env).value;
      && FromFileOr(data, "planning_timeout", JInt(c.planningTimeout), JInt(30))
      && FromFileOr(data, "execution_timeout", JInt(c.executionTimeout), JInt(120))
      && FromFileOr(data, "container_check_interval", JInt(c.containerCheckInterval), JInt(5))
  {
    var d := WithEnvOverrides(data, env);
    assert Construct(d).Ok?;
    assert DecodeRest(d).Ok?;
  }

  /** The same for the two notification switches. */
  lemma {:induction false} FileSwitchesKept(data: map<string, Json>, env: Env)
    requires FromYaml(JObj(data), env).Ok?
    ensures var c := FromYaml(JObj(data), env).value;
      && FromFileOr(data, "notify_on_block", JBool(c.notifyOnBlock), JBool(true))
      && FromFileOr(data, "notify_on_complete", JBool(c.notifyOnComplete), JBool(true))
  {
    var d := WithEnvOverrides(data, env);
    assert Construct(d).Ok?;
    assert DecodeRest(d).Ok?;
  }

  /** With an empty mapping in the file and none of the other five variables set, both ways of
      loading agree. */
  lemma EmptyFileMatchesEnv(env: Env)
    requires forall v :: v in {"LINEAR_TEAM_ID", "GIT_REPO_URL", "GIT_BASE_BRANCH", "DEFAULT_PLANNER", "DEFAULT_EXECUTOR"} ==> v !in env
    ensures FromYaml(JObj(map[]), env) == Ok(FromEnv(env))
  {
    var c := FromEnv(env);
    EmptyFileStrings(env);
    EmptyFilePaths(env);
    EmptyFileRest(env);
  }

  lemma EmptyFileStrings(env: Env)
    requires forall v :: v in {"LINEAR_TEAM_ID", "GIT_REPO_URL", "GIT_BASE_BRANCH", "DEFAULT_PLANNER", "DEFAULT_EXECUTOR"} ==> v !in env
    ensures DecodeStrings(WithEnvOverrides(map[], env)) == Ok((FromEnv(env).linearApiKey, None, "", "main", "codex", "claude"))
  {
    assert "LINEAR_TEAM_ID" !in env && "GIT_REPO_URL" !in env && "GIT_BASE_BRANCH" !in env;
    assert "DEFAULT_PLANNER" !in env && "DEFAULT_EXECUTOR" !in env;
  }

  lemma EmptyFilePaths(env: Env)
    ensures WithEnvOverrides(map[], env).Keys <= ConfigKeys
    ensures DecodePaths(WithEnvOverrides(map[], env)) == Ok(("llm-docker-claude-code:latest", "/workspace", "./workflows", "./workflow.db"))
  {
  }

  lemma EmptyFileRest(env: Env)
    ensures DecodeRest(WithEnvOverrides(map[], env)) == Ok((30, 120, 5, FromEnv(env).slackWebhookUrl, true, true, FromEnv(env).githubToken))
  {
  }

  /** `load_config`: the YAML file only when a non-empty path is given and the file exists. */
  function LoadConfig(path: Option<string>, files: map<string, Json>, env: Env): (r: Result<OrchestratorConfig>)
    ensures Text.Truthy(path) && path.value in files ==> r == FromYaml(files[path.value], env)
    ensures !(Text.Truthy(path) && path.value in files) ==> r == Ok(FromEnv(env))
  {
    if Text.Truthy(path) && path.value in files then FromYaml(files[path.value], env)
    else Ok(FromEnv(env))
  }

  predicate IsModelName(m: string) {
    m == "claude" || m == "codex"
  }

  /** The four checks of `validate`, in the order they run. */
  datatype ValidationError =
    | MissingApiKey
    | MissingRepoUrl
    | InvalidPlanner(planner: string)
    | InvalidExecutor(executor: string)

  function Rank(e: ValidationError): nat {
    match e
    case MissingApiKey => 0
    case MissingRepoUrl => 1
    case InvalidPlanner(_) => 2
    case InvalidExecutor(_) => 3
  }

  function Message(e: ValidationError): string {
    match e
    case MissingApiKey => "LINEAR_API_KEY is required"
    case MissingRepoUrl => "repo_url (GIT_REPO_URL) is required"
    case InvalidPlanner(p) => "Invalid default_planner: " + p
    case InvalidExecutor(x) => "Invalid default_executor: " + x
  }

  /** Check number `k` of `validate` (0 to 3) fails. */
  predicate Fails(c: OrchestratorConfig, k: nat) {
    match k
    case 0 => c.linearApiKey == ""
    case 1 => c.repoUrl == ""
    case 2 => !IsModelName(c.defaultPlanner)
    case _ => !IsModelName(c.defaultExecutor)
  }

  /** The error check number `k` reports. */
  function ErrorOf(c: OrchestratorConfig, k: nat): (e: ValidationError)
    requires k < 4
    ensures Rank(e) == k
  {
    match k
    case 0 => MissingApiKey
    case 1 => MissingRepoUrl
    case 2 => InvalidPlanner(c.defaultPlanner)
    case _ => InvalidExecutor(c.defaultExecutor)
  }

  /** Strictly increasing by rank: the order of the conditions, with no kind twice. */
  predicate Ordered(es: seq<ValidationError>) {
    forall i, j :: 0 <= i < j < |es| ==> Rank(es[i]) < Rank(es[j])
  }

  /** The errors of checks `k` to 3, in order. */
  function FailuresFrom(c: OrchestratorConfig, k: nat): (es: seq<ValidationError>)
    requires k <= 4
    ensures Ordered(es) && |es| <= 4 - k
    ensures forall i :: 0 <= i < |es| ==> k <= Rank(es[i]) < 4 && es[i] == ErrorOf(c, Rank(es[i])) && Fails(c, Rank(es[i]))
    ensures forall j :: k <= j < 4 && Fails(c, j) ==> ErrorOf(c, j) in es
    decreases 4 - k
  {
    if k == 4 then []
    else
      var rest := FailuresFrom(c, k + 1);
      if Fails(c, k) then [ErrorOf(c, k)] + rest else rest
  }

  /** The conditions `validate` finds failing: each exactly when its condition fails, at most one of
      each kind, in the order the source evaluates them. */
  function Failures(c: OrchestratorConfig): (es: seq<ValidationError>)
    ensures es == [] <==> c.linearApiKey != "" && c.repoUrl != "" && IsModelName(c.defaultPlanner) && IsModelName(c.defaultExecutor)
    ensures MissingApiKey in es <==> c.linearApiKey == ""
    ensures MissingRepoUrl in es <==> c.repoUrl == ""
    ensures InvalidPlanner(c.defaultPlanner) in es <==> !IsModelName(c.defaultPlanner)
    ensures InvalidExecutor(c.defaultExecutor) in es <==> !IsModelName(c.defaultExecutor)
    ensures |es| <= 4
    ensures Ordered(es)
    ensures forall i :: 0 <= i < |es| ==> Rank(es[i]) < 4 && es[i] == ErrorOf(c, Rank(es[i])) && Fails(c, Rank(es[i]))
  {
    var es := FailuresFrom(c, 0);
    assert ErrorOf(c, 0) == MissingApiKey && ErrorOf(c, 1) == MissingRepoUrl;
    assert ErrorOf(c, 2) == InvalidPlanner(c.defaultPlanner) && ErrorOf(c, 3) == InvalidExecutor(c.defaultExecutor);
    assert Fails(c, 0) == (c.linearApiKey == "") && Fails(c, 1) == (c.repoUrl == "");
    assert Fails(c, 2) == !IsModelName(c.defaultPlanner) && Fails(c, 3) == !IsModelName(c.defaultExecutor);
    es
  }

  /** One message per error, in the same order. */
  function Messages(es: seq<ValidationError>): (ms: seq<string>)
    ensures |ms| == |es|
    ensures forall i :: 0 <= i < |es| ==> ms[i] == Message(es[i])
  {
    if es == [] then [] else [Message(es[0])] + Messages(es[1..])
  }

  /** `validate`: the messages of the failing checks; valid exactly when the list is empty. */
  function Validate(c: OrchestratorConfig): (errors: seq<string>)
    ensures |errors| == |Failures(c)|
    ensures forall i :: 0 <= i < |errors| ==> errors[i] == Message(Failures(c)[i])
    ensures errors == [] <==> c.linearApiKey != "" && c.repoUrl != "" && IsModelName(c.defaultPlanner) && IsModelName(c.defaultExecutor)
  {
    Messages(Failures(c))
  }
}

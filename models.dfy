/**
 * The workflow record, its state enumeration and the agent status file
 * (orchestrator/models.py).
 *
 * The record holds the union of what models.py declares and what
 * workflow_manager.py reads and writes: the states REVIEWING, REVIEW_BLOCKED and
 * NEEDS_REWORK and the fields review_model, container_id, container_name,
 * review_iteration, max_review_iterations and review_feedback appear only in
 * workflow_manager.py and are added here.
 */
module Models {
  import opened Wrappers
  import opened Json
  import Text

  datatype WorkflowState =
    | Pending
    | FetchingTicket
    | Planning
    | PlanningBlocked
    | Planned
    | Executing
    | ExecutionBlocked
    | CreatingPr
    | Completed
    | Failed
    | Cancelled
      // used by workflow_manager.py, not declared in models.py
    | Reviewing
    | ReviewBlocked
    | NeedsRework

  /** `state.value`. */
  function StateValue(s: WorkflowState): string {
    match s
    case Pending => "pending"
    case FetchingTicket => "fetching_ticket"
    case Planning => "planning"
    case PlanningBlocked => "planning_blocked"
    case Planned => "planned"
    case Executing => "executing"
    case ExecutionBlocked => "execution_blocked"
    case CreatingPr => "creating_pr"
    case Completed => "completed"
    case Failed => "failed"
    case Cancelled => "cancelled"
    case Reviewing => "reviewing"
    case ReviewBlocked => "review_blocked"
    case NeedsRework => "needs_rework"
  }

  /** `WorkflowState(v)`: the state whose value is `v`; None where Python raises ValueError. */
  function ParseState(v: string): (r: Option<WorkflowState>)
    ensures r.Some? ==> StateValue(r.value) == v
    ensures r.None? ==> forall s :: StateValue(s) != v
  {
    if v == "pending" then Some(Pending)
    else if v == "fetching_ticket" then Some(FetchingTicket)
    else if v == "planning" then Some(Planning)
    else if v == "planning_blocked" then Some(PlanningBlocked)
    else if v == "planned" then Some(Planned)
    else if v == "executing" then Some(Executing)
    else if v == "execution_blocked" then Some(ExecutionBlocked)
    else if v == "creating_pr" then Some(CreatingPr)
    else if v == "completed" then Some(Completed)
    else if v == "failed" then Some(Failed)
    else if v == "cancelled" then Some(Cancelled)
    else if v == "reviewing" then Some(Reviewing)
    else if v == "review_blocked" then Some(ReviewBlocked)
    else if v == "needs_rework" then Some(NeedsRework)
    else None
  }

  /** Distinct states have distinct values, so decoding by value inverts `.value`. */
  lemma StateValueInjective(s: WorkflowState, t: WorkflowState)
    ensures StateValue(s) == StateValue(t) ==> s == t
    ensures ParseState(StateValue(s)) == Some(s)
  {
    var p := ParseState(StateValue(s));
    assert p.Some?;
    if StateValue(s) == StateValue(t) {
      assert ParseState(StateValue(t)) == p;
    }
  }

  datatype AgentType = Claude | Codex

  function AgentValue(a: AgentType): string {
    match a
    case Claude => "claude"
    case Codex => "codex"
  }

  /** `AgentType(v)`; None where Python raises ValueError. */
  function ParseAgent(v: string): (r: Option<AgentType>)
    ensures r.Some? <==> v == "claude" || v == "codex"
    ensures r.Some? ==> AgentValue(r.value) == v
  {
    if v == "claude" then Some(Claude) else if v == "codex" then Some(Codex) else None
  }

  /** Why a workflow is waiting for a human, and what it asks. */
  datatype BlockInfo = BlockInfo(
    reason: string,
    question: Option<string>,   // the agent's status file may omit it
    options: Option<seq<string>>,
    blockedAt: string)

  /** The persisted content of a Workflow: one value per dataclass field. */
  datatype WorkflowRecord = WorkflowRecord(
    id: string,
    linearTicketId: string,
    state: WorkflowState,
    createdAt: string,
    updatedAt: string,
    plannerModel: AgentType,
    executorModel: AgentType,
    reviewModel: AgentType,
    repoUrl: string,
    baseBranch: string,
    branchName: string,
    workflowDir: string,
    planFilePath: Option<string>,
    prUrl: Option<string>,
    prNumber: Option<int>,
    plannerContainerId: Option<string>,
    executorContainerId: Option<string>,
    containerId: Option<string>,
    containerName: Option<string>,
    blockInfo: Option<BlockInfo>,
    humanResponse: Option<string>,
    errorMessage: Option<string>,
    retryCount: int,
    reviewIteration: int,
    maxReviewIterations: int,
    reviewFeedback: Option<string>,
    ticketTitle: Option<string>,
    ticketDescription: Option<string>,
    ticketAssignee: Option<string>,
    ticketProject: Option<string>)

  /** `is_blocked`: waiting for a human answer that `respond` accepts. */
  predicate IsBlockedState(s: WorkflowState) {
    s == PlanningBlocked || s == ExecutionBlocked
  }

  /** `is_terminal`. */
  predicate IsTerminalState(s: WorkflowState) {
    s == Completed || s == Failed || s == Cancelled
  }

  lemma BlockedAndTerminalExclusive(s: WorkflowState)
    ensures IsBlockedState(s) <==> s in {PlanningBlocked, ExecutionBlocked}
    ensures IsTerminalState(s) <==> s in {Completed, Failed, Cancelled}
    ensures !(IsBlockedState(s) && IsTerminalState(s))
    ensures !IsBlockedState(ReviewBlocked) && !IsTerminalState(ReviewBlocked)
  {
  }

  /** `update_state(new_state, error_message)` on the record: the state and the update time
      are replaced; the error message only by a non-empty message, and never cleared. */
  function UpdatedState(r: WorkflowRecord, s: WorkflowState, now: string, err: Option<string>): (u: WorkflowRecord)
    ensures u.state == s && u.updatedAt == now
    ensures Text.Truthy(err) ==> u.errorMessage == err
    ensures !Text.Truthy(err) ==> u.errorMessage == r.errorMessage
    ensures r.errorMessage.Some? ==> u.errorMessage.Some?
    ensures u.(state := r.state, updatedAt := r.updatedAt, errorMessage := r.errorMessage) == r
  {
    r.(state := s, updatedAt := now, errorMessage := if Text.Truthy(err) then err else r.errorMessage)
  }

  /** `set_blocked`: a fresh BlockInfo stamped `now`, the previous human response dropped,
      the state untouched. */
  function WithBlock(r: WorkflowRecord, reason: string, question: Option<string>, options: Option<seq<string>>, now: string): (u: WorkflowRecord)
    ensures u.blockInfo == Some(BlockInfo(reason, question, options, now))
    ensures u.humanResponse.None?
    ensures u.state == r.state && u.updatedAt == r.updatedAt
    ensures u.(blockInfo := r.blockInfo, humanResponse := r.humanResponse) == r
  {
    r.(blockInfo := Some(BlockInfo(reason, question, options, now)), humanResponse := None)
  }

  /** `set_unblocked(response)`: the response recorded, the block dropped, the state untouched. */
  function WithResponse(r: WorkflowRecord, response: string): (u: WorkflowRecord)
    ensures u.humanResponse == Some(response) && u.blockInfo.None?
    ensures u.state == r.state && u.updatedAt == r.updatedAt
    ensures u.(blockInfo := r.blockInfo, humanResponse := r.humanResponse) == r
  {
    r.(humanResponse := Some(response), blockInfo := None)
  }

  // ---------------------------------------------------------------------------
  // to_dict / from_dict

  function OptStr(o: Option<string>): Json {
    match o
    case None => JNull
    case Some(s) => JStr(s)
  }

  function OptInt(o: Option<int>): Json {
    match o
    case None => JNull
    case Some(i) => JInt(i)
  }

  function OptStrList(o: Option<seq<string>>): Json {
    match o
    case None => JNull
    case Some(xs) => StrList(xs)
  }

  /** `BlockInfo.to_dict` (dataclasses.asdict). */
  function BlockInfoToDict(b: BlockInfo): map<string, Json> {
    map["reason" := JStr(b.reason),
        "question" := OptStr(b.question),
        "options" := OptStrList(b.options),
        "blocked_at" := JStr(b.blockedAt)]
  }

  const BlockInfoKeys: set<string> := {"reason", "question", "options", "blocked_at"}

  const WorkflowKeys: set<string> := {
    "id", "linear_ticket_id", "state", "created_at", "updated_at",
    "planner_model", "executor_model", "review_model",
    "repo_url", "base_branch", "branch_name",
    "workflow_dir", "plan_file_path", "pr_url", "pr_number",
    "planner_container_id", "executor_container_id", "container_id", "container_name",
    "block_info", "human_response", "error_message", "retry_count",
    "review_iteration", "max_review_iterations", "review_feedback",
    "ticket_title", "ticket_description", "ticket_assignee", "ticket_project"}

  /** `Workflow.to_dict`: every field under its Python name, enums by `.value`,
      `block_info` as a nested object. */
  function ToDict(r: WorkflowRecord): (d: map<string, Json>)
  {
    map[
      "id" := JStr(r.id),
      "linear_ticket_id" := JStr(r.linearTicketId),
      "state" := JStr(StateValue(r.state)),
      "created_at" := JStr(r.createdAt),
      "updated_at" := JStr(r.updatedAt),
      "planner_model" := JStr(AgentValue(r.plannerModel)),
      "executor_model" := JStr(AgentValue(r.executorModel)),
      "review_model" := JStr(AgentValue(r.reviewModel)),
      "repo_url" := JStr(r.repoUrl),
      "base_branch" := JStr(r.baseBranch),
      "branch_name" := JStr(r.branchName),
      "workflow_dir" := JStr(r.workflowDir),
      "plan_file_path" := OptStr(r.planFilePath),
      "pr_url" := OptStr(r.prUrl),
      "pr_number" := OptInt(r.prNumber),
      "planner_container_id" := OptStr(r.plannerContainerId),
      "executor_container_id" := OptStr(r.executorContainerId),
      "container_id" := OptStr(r.containerId),
      "container_name" := OptStr(r.containerName),
      "block_info" := (match r.blockInfo case None => JNull case Some(b) => JObj(BlockInfoToDict(b))),
      "human_response" := OptStr(r.humanResponse),
      "error_message" := OptStr(r.errorMessage),
      "retry_count" := JInt(r.retryCount),
      "review_iteration" := JInt(r.reviewIteration),
      "max_review_iterations" := JInt(r.maxReviewIterations),
      "review_feedback" := OptStr(r.reviewFeedback),
      "ticket_title" := OptStr(r.ticketTitle),
      "ticket_description" := OptStr(r.ticketDescription),
      "ticket_assignee" := OptStr(r.ticketAssignee),
      "ticket_project" := OptStr(r.ticketProject)]
  }

  function ReqAgent(d: map<string, Json>, k: string): Result<AgentType> {
    var v :- ReqString(d, k);
    match ParseAgent(v)
    case None => Err("invalid AgentType " + v)
    case Some(a) => Ok(a)
  }

  /** `BlockInfo.from_dict` (cls(**data)): `reason` and `question` are required,
      `options` defaults to None and `blocked_at` to the current time. */
  function BlockInfoFromDict(m: map<string, Json>, now: string): (r: Result<BlockInfo>)
    ensures r.Ok? ==> m.Keys <= BlockInfoKeys && "reason" in m && "question" in m
    ensures r.Ok? ==> m["reason"] == JStr(r.value.reason) && OptStringOf(m["question"]) == Ok(r.value.question)
    ensures r.Ok? && "blocked_at" in m ==> m["blocked_at"] == JStr(r.value.blockedAt)
    ensures r.Ok? && "blocked_at" !in m ==> r.value.blockedAt == now
    ensures r.Ok? && "options" !in m ==> r.value.options.None?
  {
    if !(m.Keys <= BlockInfoKeys) then Err("unexpected BlockInfo field")
    else if "question" !in m then Err("missing BlockInfo field question")
    else
      var reason :- ReqString(m, "reason");
      var question :- OptStringOf(m["question"]);
      var options :- if "options" in m then OptStringList(m["options"]) else Ok(None);
      var blockedAt :- StringOr(m, "blocked_at", now);
      Ok(BlockInfo(reason, question, options, blockedAt))
  }

  /** `data.get('block_info')`: decoded when it is a non-empty object. An empty object (kept as a
      raw dict by Python) and any other shape are rejected. */
  function BlockField(d: map<string, Json>, now: string): Result<Option<BlockInfo>> {
    if "block_info" !in d then Ok(None)
    else match d["block_info"]
      case JNull => Ok(None)
      case JObj(m) =>
        if m == map[] then Err("empty block_info")
        else (var b :- BlockInfoFromDict(m, now); Ok(Some(b)))
      case _ => Err("invalid block_info")
  }

  // from_dict decodes the record in groups of fields so that each step stays small.

  function DecodeState(d: map<string, Json>): (r: Result<WorkflowState>)
    ensures r.Ok? ==> "state" in d && d["state"] == JStr(StateValue(r.value))
  {
    var stateValue :- ReqString(d, "state");
    match ParseState(stateValue)
    case None => Err("invalid WorkflowState " + stateValue)
    case Some(s) => Ok(s)
  }

  function DecodeIdentity(d: map<string, Json>, now: string): (r: Result<(string, string, string, string)>)
    ensures r.Ok? ==> "id" in d && "linear_ticket_id" in d && d["id"] == JStr(r.value.0)
    ensures r.Ok? && "created_at" !in d ==> r.value.2 == now
  {
    var id :- ReqString(d, "id");
    var ticket :- ReqString(d, "linear_ticket_id");
    var createdAt :- StringOr(d, "created_at", now);
    var updatedAt :- StringOr(d, "updated_at", now);
    Ok((id, ticket, createdAt, updatedAt))
  }

  function DecodeAgents(d: map<string, Json>): (r: Result<(AgentType, AgentType, AgentType)>)
    ensures r.Ok? ==> "planner_model" in d && "executor_model" in d && "review_model" in d
  {
    var planner :- ReqAgent(d, "planner_model");
    var executor :- ReqAgent(d, "executor_model");
    var reviewer :- ReqAgent(d, "review_model");
    Ok((planner, executor, reviewer))
  }

  function DecodeGit(d: map<string, Json>): Result<(string, string, string, string)> {
    var repoUrl :- StringOr(d, "repo_url", "");
    var baseBranch :- StringOr(d, "base_branch", "main");
    var branchName :- StringOr(d, "branch_name", "");
    var workflowDir :- StringOr(d, "workflow_dir", "");
    Ok((repoUrl, baseBranch, branchName, workflowDir))
  }

  function DecodeArtifacts(d: map<string, Json>): Result<(Option<string>, Option<string>, Option<int>)> {
    var planFile :- OptString(d, "plan_file_path");
    var prUrl :- OptString(d, "pr_url");
    var prNumber :- OptIntField(d, "pr_number");
    Ok((planFile, prUrl, prNumber))
  }

  function DecodeContainers(d: map<string, Json>): Result<(Option<string>, Option<string>, Option<string>, Option<string>)> {
    var plannerContainer :- OptString(d, "planner_container_id");
    var executorContainer :- OptString(d, "executor_container_id");
    var containerId :- OptString(d, "container_id");
    var containerName :- OptString(d, "container_name");
    Ok((plannerContainer, executorContainer, containerId, containerName))
  }

  function DecodeInteraction(d: map<string, Json>, now: string): Result<(Option<BlockInfo>, Option<string>, Option<string>, int)> {
    var block :- BlockField(d, now);
    var humanResponse :- OptString(d, "human_response");
    var errorMessage :- OptString(d, "error_message");
    var retryCount :- IntOr(d, "retry_count", 0);
    Ok((block, humanResponse, errorMessage, retryCount))
  }

  function DecodeReview(d: map<string, Json>): (r: Result<(int, int, Option<string>)>)
    ensures r.Ok? ==> "max_review_iterations" in d
  {
    var reviewIteration :- IntOr(d, "review_iteration", 0);
    var maxIterations :- ReqInt(d, "max_review_iterations");
    var reviewFeedback :- OptString(d, "review_feedback");
    Ok((reviewIteration, maxIterations, reviewFeedback))
  }

  function DecodeTicket(d: map<string, Json>): Result<(Option<string>, Option<string>, Option<string>, Option<string>)> {
    var title :- OptString(d, "ticket_title");
    var description :- OptString(d, "ticket_description");
    var assignee :- OptString(d, "ticket_assignee");
    var project :- OptString(d, "ticket_project");
    Ok((title, description, assignee, project))
  }

  /** `Workflow.from_dict`. `state`, `planner_model`, `executor_model`, `review_model`, `id`,
      `linear_ticket_id` and `max_review_iterations` are required; every other field falls back
      to its default (timestamps to `now`); an unknown key is refused as `cls(**data)` refuses it. */
  function FromDict(d: map<string, Json>, now: string): (r: Result<WorkflowRecord>)
    ensures !(d.Keys <= WorkflowKeys) ==> r.Err?
  {
    if !(d.Keys <= WorkflowKeys) then Err("unexpected Workflow field")
    else
      var state :- DecodeState(d);
      var agents :- DecodeAgents(d);
      var ident :- DecodeIdentity(d, now);
      var git :- DecodeGit(d);
      var artifacts :- DecodeArtifacts(d);
      var containers :- DecodeContainers(d);
      var interaction :- DecodeInteraction(d, now);
      var review :- DecodeReview(d);
      var ticket :- DecodeTicket(d);
      Ok(WorkflowRecord(ident.0, ident.1, state, ident.2, ident.3, agents.0, agents.1, agents.2,
                        git.0, git.1, git.2, git.3, artifacts.0, artifacts.1, artifacts.2,
                        containers.0, containers.1, containers.2, containers.3,
                        interaction.0, interaction.1, interaction.2, interaction.3,
                        review.0, review.1, review.2,
                        ticket.0, ticket.1, ticket.2, ticket.3))
  }

  /** The keys `cls(**data)` cannot do without: the fields with no default. */
  const RequiredWorkflowKeys: set<string> := {
    "id", "linear_ticket_id", "state", "planner_model", "executor_model", "review_model",
    "max_review_iterations"}

  /** What a successful load says about the document: every field without a default was there,
      the state and id are the ones stored, and a missing `created_at` became `now`. */
  lemma FromDictRequired(d: map<string, Json>, now: string)
    requires FromDict(d, now).Ok?
    ensures RequiredWorkflowKeys <= d.Keys
    ensures d["state"] == JStr(StateValue(FromDict(d, now).value.state))
    ensures d["id"] == JStr(FromDict(d, now).value.id)
    ensures "created_at" !in d ==> FromDict(d, now).value.createdAt == now
  {
    var state := DecodeState(d);
    var ident := DecodeIdentity(d, now);
    assert state.Ok? && DecodeAgents(d).Ok? && ident.Ok?;
    assert DecodeReview(d).Ok?;
    assert FromDict(d, now).value.state == state.value;
    assert FromDict(d, now).value.id == ident.value.0 && FromDict(d, now).value.createdAt == ident.value.2;
  }

  lemma BlockInfoRoundTrip(b: BlockInfo, now: string)
    ensures BlockInfoFromDict(BlockInfoToDict(b), now) == Ok(b)
  {
    var m := BlockInfoToDict(b);
    assert m.Keys == BlockInfoKeys;
    if b.options.Some? {
      StringsOfStrList(b.options.value);
    }
  }

  lemma StateRoundTrip(r: WorkflowRecord)
    ensures DecodeState(ToDict(r)) == Ok(r.state)
  {
    StateValueInjective(r.state, r.state);
  }

  // Each of the following lemmas decodes one or two entries of `to_dict`'s output; they are kept
  // small because every lookup in a 30-entry map literal is costly for the solver.

  lemma IdentityEntries1(r: WorkflowRecord, now: string)
    ensures ReqString(ToDict(r), "id") == Ok(r.id)
    ensures ReqString(ToDict(r), "linear_ticket_id") == Ok(r.linearTicketId)
  {
  }

  lemma IdentityEntries2(r: WorkflowRecord, now: string)
    ensures StringOr(ToDict(r), "created_at", now) == Ok(r.createdAt)
    ensures StringOr(ToDict(r), "updated_at", now) == Ok(r.updatedAt)
  {
  }

  lemma IdentityRoundTrip(r: WorkflowRecord, now: string)
    ensures DecodeIdentity(ToDict(r), now) == Ok((r.id, r.linearTicketId, r.createdAt, r.updatedAt))
  {
    IdentityEntries1(r, now);
    IdentityEntries2(r, now);
  }

  lemma AgentsEntries1(r: WorkflowRecord, now: string)
    ensures ReqString(ToDict(r), "planner_model") == Ok(AgentValue(r.plannerModel))
    ensures ReqString(ToDict(r), "executor_model") == Ok(AgentValue(r.executorModel))
  {
  }

  lemma AgentsEntries2(r: WorkflowRecord, now: string)
    ensures ReqString(ToDict(r), "review_model") == Ok(AgentValue(r.reviewModel))
  {
  }

  lemma AgentsRoundTrip(r: WorkflowRecord, now: string)
    ensures DecodeAgents(ToDict(r)) == Ok((r.plannerModel, r.executorModel, r.reviewModel))
  {
    AgentsEntries1(r, now);
    AgentsEntries2(r, now);
    assert ParseAgent(AgentValue(r.plannerModel)) == Some(r.plannerModel);
    assert ParseAgent(AgentValue(r.executorModel)) == Some(r.executorModel);
    assert ParseAgent(AgentValue(r.reviewModel)) == Some(r.reviewModel);
  }

  lemma GitEntries1(r: WorkflowRecord, now: string)
    ensures StringOr(ToDict(r), "repo_url", "") == Ok(r.repoUrl)
    ensures StringOr(ToDict(r), "base_branch", "main") == Ok(r.baseBranch)
  {
  }

  lemma GitEntries2(r: WorkflowRecord, now: string)
    ensures StringOr(ToDict(r), "branch_name", "") == Ok(r.branchName)
    ensures StringOr(ToDict(r), "workflow_dir", "") == Ok(r.workflowDir)
  {
  }

  lemma GitRoundTrip(r: WorkflowRecord, now: string)
    ensures DecodeGit(ToDict(r)) == Ok((r.repoUrl, r.baseBranch, r.branchName, r.workflowDir))
  {
    GitEntries1(r, now);
    GitEntries2(r, now);
  }

  lemma ArtifactsEntries1(r: WorkflowRecord, now: string)
    ensures OptString(ToDict(r), "plan_file_path") == Ok(r.planFilePath)
    ensures OptString(ToDict(r), "pr_url") == Ok(r.prUrl)
  {
  }

  lemma ArtifactsEntries2(r: WorkflowRecord, now: string)
    ensures OptIntField(ToDict(r), "pr_number") == Ok(r.prNumber)
  {
  }

  lemma ArtifactsRoundTrip(r: WorkflowRecord, now: string)
    ensures DecodeArtifacts(ToDict(r)) == Ok((r.planFilePath, r.prUrl, r.prNumber))
  {
    ArtifactsEntries1(r, now);
    ArtifactsEntries2(r, now);
  }

  lemma ContainersEntries1(r: WorkflowRecord, now: string)
    ensures OptString(ToDict(r), "planner_container_id") == Ok(r.plannerContainerId)
    ensures OptString(ToDict(r), "executor_container_id") == Ok(r.executorContainerId)
  {
  }

  lemma ContainersEntries2(r: WorkflowRecord, now: string)
    ensures OptString(ToDict(r), "container_id") == Ok(r.containerId)
    ensures OptString(ToDict(r), "container_name") == Ok(r.containerName)
  {
  }

  lemma ContainersRoundTrip(r: WorkflowRecord, now: string)
    ensures DecodeContainers(ToDict(r)) == Ok((r.plannerContainerId, r.executorContainerId, r.containerId, r.containerName))
  {
    ContainersEntries1(r, now);
    ContainersEntries2(r, now);
  }

  lemma ReviewEntries1(r: WorkflowRecord, now: string)
    ensures IntOr(ToDict(r), "review_iteration", 0) == Ok(r.reviewIteration)
    ensures ReqInt(ToDict(r), "max_review_iterations") == Ok(r.maxReviewIterations)
  {
  }

  lemma ReviewEntries2(r: WorkflowRecord, now: string)
    ensures OptString(ToDict(r), "review_feedback") == Ok(r.reviewFeedback)
  {
  }

  lemma ReviewRoundTrip(r: WorkflowRecord, now: string)
    ensures DecodeReview(ToDict(r)) == Ok((r.reviewIteration, r.maxReviewIterations, r.reviewFeedback))
  {
    ReviewEntries1(r, now);
    ReviewEntries2(r, now);
  }

  lemma TicketEntries1(r: WorkflowRecord, now: string)
    ensures OptString(ToDict(r), "ticket_title") == Ok(r.ticketTitle)
    ensures OptString(ToDict(r), "ticket_description") == Ok(r.ticketDescription)
  {
  }

  lemma TicketEntries2(r: WorkflowRecord, now: string)
    ensures OptString(ToDict(r), "ticket_assignee") == Ok(r.ticketAssignee)
    ensures OptString(ToDict(r), "ticket_project") == Ok(r.ticketProject)
  {
  }

  lemma TicketRoundTrip(r: WorkflowRecord, now: string)
    ensures DecodeTicket(ToDict(r)) == Ok((r.ticketTitle, r.ticketDescription, r.ticketAssignee, r.ticketProject))
  {
    TicketEntries1(r, now);
    TicketEntries2(r, now);
  }

  lemma InteractionEntries(r: WorkflowRecord, now: string)
    ensures OptString(ToDict(r), "human_response") == Ok(r.humanResponse)
    ensures OptString(ToDict(r), "error_message") == Ok(r.errorMessage)
  {
  }

  lemma BlockEntry(r: WorkflowRecord, now: string)
    ensures IntOr(ToDict(r), "retry_count", 0) == Ok(r.retryCount)
    ensures "block_info" in ToDict(r)
    ensures ToDict(r)["block_info"] == (match r.blockInfo case None => JNull case Some(b) => JObj(BlockInfoToDict(b)))
  {
  }

  lemma InteractionRoundTrip(r: WorkflowRecord, now: string)
    ensures DecodeInteraction(ToDict(r), now) == Ok((r.blockInfo, r.humanResponse, r.errorMessage, r.retryCount))
  {
    InteractionEntries(r, now);
    BlockEntry(r, now);
    if r.blockInfo.Some? {
      BlockInfoRoundTrip(r.blockInfo.value, now);
      assert "reason" in BlockInfoToDict(r.blockInfo.value);
    }
  }

  lemma ToDictKeys(r: WorkflowRecord)
    ensures ToDict(r).Keys == WorkflowKeys
  {
  }

  /** Round trip: loading what `to_dict` saved gives back the same record, whatever the clock says. */
  lemma RoundTrip(r: WorkflowRecord, now: string)
    ensures FromDict(ToDict(r), now) == Ok(r)
  {
    ToDictKeys(r);
    StateRoundTrip(r);
    IdentityRoundTrip(r, now);
    AgentsRoundTrip(r, now);
    GitRoundTrip(r, now);
    ArtifactsRoundTrip(r, now);
    ContainersRoundTrip(r, now);
    ReviewRoundTrip(r, now);
    TicketRoundTrip(r, now);
    InteractionRoundTrip(r, now);
  }

  // ---------------------------------------------------------------------------
  // The Workflow object

  /** The live workflow whose fields `update_state`, `set_blocked` and `set_unblocked`
      (and the phase handlers) assign in place. */
  class Workflow {
    var id: string
    var linearTicketId: string
    var state: WorkflowState
    var createdAt: string
    var updatedAt: string
    var plannerModel: AgentType
    var executorModel: AgentType
    var reviewModel: AgentType
    var repoUrl: string
    var baseBranch: string
    var branchName: string
    var workflowDir: string
    var planFilePath: Option<string>
    var prUrl: Option<string>
    var prNumber: Option<int>
    var plannerContainerId: Option<string>
    var executorContainerId: Option<string>
    var containerId: Option<string>
    var containerName: Option<string>
    var blockInfo: Option<BlockInfo>
    var humanResponse: Option<string>
    var errorMessage: Option<string>
    var retryCount: int
    var reviewIteration: int
    var maxReviewIterations: int
    var reviewFeedback: Option<string>
    var ticketTitle: Option<string>
    var ticketDescription: Option<string>
    var ticketAssignee: Option<string>
    var ticketProject: Option<string>

    /** The record the object currently holds. */
    function Snapshot(): WorkflowRecord
      reads this
    {
      WorkflowRecord(id, linearTicketId, state, createdAt, updatedAt, plannerModel, executorModel,
                     reviewModel, repoUrl, baseBranch, branchName, workflowDir, planFilePath, prUrl,
                     prNumber, plannerContainerId, executorContainerId, containerId, containerName,
                     blockInfo, humanResponse, errorMessage, retryCount, reviewIteration,
                     maxReviewIterations, reviewFeedback, ticketTitle, ticketDescription,
                     ticketAssignee, ticketProject)
    }

    constructor (r: WorkflowRecord)
      ensures Snapshot() == r
    {
      id, linearTicketId, state, createdAt, updatedAt := r.id, r.linearTicketId, r.state, r.createdAt, r.updatedAt;
      plannerModel, executorModel, reviewModel := r.plannerModel, r.executorModel, r.reviewModel;
      repoUrl, baseBranch, branchName, workflowDir := r.repoUrl, r.baseBranch, r.branchName, r.workflowDir;
      planFilePath, prUrl, prNumber := r.planFilePath, r.prUrl, r.prNumber;
      plannerContainerId, executorContainerId := r.plannerContainerId, r.executorContainerId;
      containerId, containerName := r.containerId, r.containerName;
      blockInfo, humanResponse, errorMessage, retryCount := r.blockInfo, r.humanResponse, r.errorMessage, r.retryCount;
      reviewIteration, maxReviewIterations, reviewFeedback := r.reviewIteration, r.maxReviewIterations, r.reviewFeedback;
      ticketTitle, ticketDescription, ticketAssignee, ticketProject := r.ticketTitle, r.ticketDescription, r.ticketAssignee, r.ticketProject;
    }

    /** `from_dict`: a new object holding the decoded record, or the decoding error. */
    static method FromDictObject(d: map<string, Json>, now: string) returns (res: Result<Workflow>)
      ensures FromDict(d, now).Err? <==> res.Err?
      ensures res.Ok? ==> fresh(res.value) && res.value.Snapshot() == FromDict(d, now).value
    {
      var decoded := FromDict(d, now);
      if decoded.Err? {
        return Err(decoded.error);
      }
      var w := new Workflow(decoded.value);
      return Ok(w);
    }

    /** `to_dict`; loading its result gives back this object's record. */
    function ToDictObject(now: string): (d: map<string, Json>)
      reads this
      ensures d.Keys == WorkflowKeys
      ensures FromDict(d, now) == Ok(Snapshot())
    {
      RoundTrip(Snapshot(), now);
      ToDict(Snapshot())
    }

    method UpdateState(newState: WorkflowState, now: string, err: Option<string>)
      modifies this
      ensures Snapshot() == UpdatedState(old(Snapshot()), newState, now, err)
    {
      ghost var before := Snapshot();
      var message := if Text.Truthy(err) then err else errorMessage;
      state, updatedAt, errorMessage := newState, now, message;
      assert Snapshot() == before.(state := newState, updatedAt := now, errorMessage := message);
    }

    method SetBlocked(reason: string, question: Option<string>, options: Option<seq<string>>, now: string)
      modifies this
      ensures Snapshot() == WithBlock(old(Snapshot()), reason, question, options, now)
    {
      blockInfo := Some(BlockInfo(reason, question, options, now));
      humanResponse := None;
    }

    method SetUnblocked(response: string)
      modifies this
      ensures Snapshot() == WithResponse(old(Snapshot()), response)
    {
      humanResponse := Some(response);
      blockInfo := None;
    }

    predicate IsBlocked()
      reads this
    {
      IsBlockedState(state)
    }

    predicate IsTerminal()
      reads this
    {
      IsTerminalState(state)
    }
  }

  // ---------------------------------------------------------------------------
  // AgentStatus

  /** The agent's status file `.workflow-status.json`. */
  datatype AgentStatus = AgentStatus(
    status: string,
    message: Option<string>,
    question: Option<string>,
    options: Option<seq<string>>,
    outputFile: Option<string>)

  const AgentStatusKeys: set<string> := {"status", "message", "question", "options", "output_file"}

  /** `AgentStatus.from_dict` (cls(**data)): `status` is required, the rest default to None.
      Anything else (not an object, an unknown or missing key) fails as the TypeError does. */
  function AgentStatusFromJson(j: Json): (r: Result<AgentStatus>)
    ensures r.Ok? ==> j.JObj? && j.fields.Keys <= AgentStatusKeys && "status" in j.fields
    ensures r.Ok? ==> j.fields["status"] == JStr(r.value.status)
  {
    if !j.JObj? then Err("argument after ** must be a mapping")
    else
      var m := j.fields;
      if !(m.Keys <= AgentStatusKeys) then Err("unexpected AgentStatus field")
      else
        var status :- ReqString(m, "status");
        var message :- OptString(m, "message");
        var question :- OptString(m, "question");
        var options :- if "options" in m then OptStringList(m["options"]) else Ok(None);
        var outputFile :- OptString(m, "output_file");
        Ok(AgentStatus(status, message, question, options, outputFile))
  }

  /** `AgentStatus.to_dict` (dataclasses.asdict): all five fields, None as null. */
  function AgentStatusToJson(s: AgentStatus): (j: Json)
    ensures j.JObj? && j.fields.Keys == AgentStatusKeys
    ensures j.fields["status"] == JStr(s.status)
  {
    JObj(map["status" := JStr(s.status),
             "message" := OptStr(s.message),
             "question" := OptStr(s.question),
             "options" := OptStrList(s.options),
             "output_file" := OptStr(s.outputFile)])
  }

  /** Round trip: `AgentStatus.from_dict(s.to_dict()) == s`. */
  lemma AgentStatusRoundTrip(s: AgentStatus)
    ensures AgentStatusFromJson(AgentStatusToJson(s)) == Ok(s)
  {
    if s.options.Some? {
      StringsOfStrList(s.options.value);
    }
  }

  /** `AgentStatus.from_file`: a missing file and text that is not JSON give None; a JSON
      document that does not fit AgentStatus still raises (only FileNotFoundError and
      JSONDecodeError are caught). */
  function AgentStatusFromFile(f: Option<FileBody>): (r: Result<Option<AgentStatus>>)
    ensures f.None? ==> r == Ok(None)
    ensures f == Some(Malformed) ==> r == Ok(None)
    ensures r.Ok? && r.value.Some? ==> f.Some? && f.value.Doc? && AgentStatusFromJson(f.value.value) == Ok(r.value.value)
    ensures r.Err? ==> f.Some? && f.value.Doc? && AgentStatusFromJson(f.value.value).Err?
    ensures f.Some? && f.value.Doc? && AgentStatusFromJson(f.value.value).Ok? ==>
      r == Ok(Some(AgentStatusFromJson(f.value.value).value))
  {
    match f
    case None => Ok(None)
    case Some(Malformed) => Ok(None)
    case Some(Doc(j)) =>
      match AgentStatusFromJson(j)
      case Err(e) => Err(e)
      case Ok(s) => Ok(Some(s))
  }
}

# Workflow orchestrator, modelled in Dafny

The workflow orchestrator takes a Linear ticket through five steps:

1. A planner agent writes a plan in a Docker container.
2. An executor agent implements the plan.
3. Optionally, a reviewer agent checks the work and sends it back for rework a bounded number of times.
4. A PR agent pushes a pull request.
5. The workflow is marked COMPLETED.

Agents and the orchestrator talk through two JSON files in the workflow directory:

- `.workflow-status.json`, which the agent writes (`blocked`, `complete`, `error`, anything else);
- `.workflow-resume.json`, which the orchestrator writes when a human answers a question.

This project models the core of that system one module per source file:

- `Models`: the `Workflow` record and object, with its state enum, mutators, predicates and JSON encoding.
- `WorkflowManager`:
  - the phase transitions of the workflow manager, recast as a step function over the events the container yields, plus a fold over a finite run of events;
  - an imperative `Manager` class whose methods mutate a `Workflow` object and are proved equal to the step function;
  - listing, the screenshots manifest, the executor-prompt feedback note and responding.
- `DockerManager`:
  - the per-poll classification of `wait_for_container` and the loop that drives it;
  - the status-file protocol over a map from file name to contents;
  - the `docker` argument vectors.
- `PrUrl` and `BranchName`: the pure string helpers of the workflow manager (leftmost pull-request URL extraction and branch-name slugs).
- `Config`: validation, defaults, environment-over-file precedence and the choice of source.
- `LinearClient`: the issue-to-markdown serialiser, attachment file names and downloads, and first-match state lookup.
- `Cli`: the guards and table logic of `list`, `respond`, `cancel`, `interact` and `shell`.

`Wrappers`, `Json` and `Text` are support modules:

- `Option`/`Result`;
- a JSON value type;
- ASCII versions of the Python `str` methods the code relies on.

The workflow manager uses states, workflow fields and configuration fields that `models.py` and `config.py` do not declare:

- states: REVIEWING, REVIEW_BLOCKED, NEEDS_REWORK;
- workflow fields: `container_id`, `container_name`, `review_model`, `review_iteration`, `max_review_iterations`, `review_feedback`;
- configuration fields: `review_enabled`, `max_review_iterations`, `default_reviewer`.

The model takes the union:

- The states get the values "reviewing", "review_blocked" and "needs_rework".
- The fields are part of `WorkflowRecord`.
- The configuration fields form `Config.ReviewSettings`, beside `OrchestratorConfig`.

Design decisions that follow the code rather than its description:

- `review_iteration` counts reviewer runs. It is incremented when a review starts, not when rework is requested.
- REVIEW_BLOCKED is not "blocked": `respond` refuses it.
- `time` is not imported in `workflow_manager.py`. The approve path as written therefore always ends FAILED (see Findings). The rest of the model uses the intended behaviour.

## Model

| member | source | states |
|---|---|---|
| Models.ParseState | workflow-orchestrator/orchestrator/models.py:10-22 | decoding a state by value: a found state has that value; None means no state has it |
| Models.StateValueInjective | workflow-orchestrator/orchestrator/models.py:10-22 | distinct states have distinct values, so decoding by value inverts `.value` |
| Models.ParseAgent | workflow-orchestrator/orchestrator/models.py:25-28 | `AgentType(v)` succeeds exactly for "claude" and "codex" and inverts `.value` |
| Models.BlockedAndTerminalExclusive | workflow-orchestrator/orchestrator/models.py:132-138 | blocked iff PLANNING_BLOCKED or EXECUTION_BLOCKED; terminal iff COMPLETED, FAILED or CANCELLED; never both; REVIEW_BLOCKED is neither |
| Models.UpdatedState | workflow-orchestrator/orchestrator/models.py:115-120 | the state and update time are set; the error message is replaced only by a non-empty message and never cleared; nothing else changes |
| Models.WithBlock | workflow-orchestrator/orchestrator/models.py:122-125 | a fresh BlockInfo stamped with the time, the human response dropped, the state and every other field unchanged |
| Models.WithResponse | workflow-orchestrator/orchestrator/models.py:127-130 | the response recorded and the block dropped; the state and every other field unchanged |
| Models.ToDictKeys | workflow-orchestrator/orchestrator/models.py:91-99 | `to_dict` writes exactly one key per dataclass field |
| Models.BlockInfoFromDict | workflow-orchestrator/orchestrator/models.py:30-43 | `reason` and `question` must be present and no other key than the four fields; the stored reason and question are kept; a missing `blocked_at` is the current time and missing `options` is None |
| Models.FromDict | workflow-orchestrator/orchestrator/models.py:101-113 | an unknown key fails, as `cls(**data)` raises TypeError |
| Models.FromDictRequired | workflow-orchestrator/orchestrator/models.py:101-113 | a successful load had every field without a default, keeps the stored state and id, and stamps a missing `created_at` with the current time |
| Models.BlockInfoRoundTrip | workflow-orchestrator/orchestrator/models.py:39-44 | `BlockInfo.from_dict(to_dict(b)) == b` |
| Models.RoundTrip | workflow-orchestrator/orchestrator/models.py:91-113 | `from_dict(to_dict(w)) == w`, whatever the clock says |
| Models.Workflow.FromDictObject | workflow-orchestrator/orchestrator/models.py:101-113 | a new object holding the decoded record exactly when decoding succeeds |
| Models.Workflow.ToDictObject | workflow-orchestrator/orchestrator/models.py:91-99 | the dictionary has one key per field and loads back to the object's record |
| Models.Workflow.UpdateState | workflow-orchestrator/orchestrator/models.py:115-120 | the object's new record is `UpdatedState` of the old one |
| Models.Workflow.SetBlocked | workflow-orchestrator/orchestrator/models.py:122-125 | the object's new record is `WithBlock` of the old one |
| Models.Workflow.SetUnblocked | workflow-orchestrator/orchestrator/models.py:127-130 | the object's new record is `WithResponse` of the old one |
| Models.AgentStatusFromJson | workflow-orchestrator/orchestrator/models.py:141-155 | decoding succeeds only for an object with a string `status` and no unknown keys, and keeps that `status` |
| Models.AgentStatusToJson | workflow-orchestrator/orchestrator/models.py:150-151 | `to_dict` writes all five fields, `status` as given |
| Models.AgentStatusRoundTrip | workflow-orchestrator/orchestrator/models.py:150-155 | `AgentStatus.from_dict(s.to_dict()) == s` |
| Models.AgentStatusFromFile | workflow-orchestrator/orchestrator/models.py:157-165 | a missing file or text that is not JSON gives None; a JSON document that does not decode fails; a document that decodes gives exactly its status |
| Config.GetEnvOr | workflow-orchestrator/orchestrator/config.py:63-72 | `os.getenv(name, default)`: the variable when set, else the default |
| Config.Defaults | workflow-orchestrator/orchestrator/config.py:10-45 | every dataclass default: no team id, empty repository URL, branch "main", planner "codex", executor "claude", image "llm-docker-claude-code:latest", workspace "/workspace", workflows "./workflows", database "./workflow.db", timeouts 30/120/5, notifications on, no token or webhook |
| Config.FromEnv | workflow-orchestrator/orchestrator/config.py:60-72 | each of the eight variables read with its default; all other fields at their dataclass defaults |
| Config.WithEnvOverrides | workflow-orchestrator/orchestrator/config.py:54-56 | the three override keys are added; every other file key keeps its value |
| Config.FromYaml | workflow-orchestrator/orchestrator/config.py:47-58 | a document that is not a mapping, or has an unknown key, fails; a mapping loads exactly when its keys are fields and, after the environment's overrides, every value is of its field's type |
| Config.ConstructTyped | workflow-orchestrator/orchestrator/config.py:58 | `cls(**data)` on known keys succeeds exactly when every value is of its field's type |
| Config.WellTypedFileLoads | workflow-orchestrator/orchestrator/config.py:47-58 | a file of known keys with well-typed values loads under every environment |
| Config.EnvOverridesFile | workflow-orchestrator/orchestrator/config.py:54-56 | a set LINEAR_API_KEY, GITHUB_TOKEN or SLACK_WEBHOOK_URL wins over the file; an unset one leaves the file value or the default |
| Config.FileValuesKept | workflow-orchestrator/orchestrator/config.py:47-58 | the text fields the environment does not override (repository URL, base branch, planner, executor, team id) take the file's value when present and the default otherwise |
| Config.FilePathsKept | workflow-orchestrator/orchestrator/config.py:47-58 | the same for the image, workspace, workflows directory and database path |
| Config.FileTimeoutsKept | workflow-orchestrator/orchestrator/config.py:47-58 | the same for the three timeouts |
| Config.FileSwitchesKept | workflow-orchestrator/orchestrator/config.py:47-58 | the same for the two notification switches |
| Config.EmptyFileMatchesEnv | workflow-orchestrator/orchestrator/config.py:47-72 | a file holding an empty mapping `{}` and an environment without the other five variables give the same configuration as `from_env` (an empty file is `None` to `yaml.safe_load` and makes `from_yaml` raise) |
| Config.LoadConfig | workflow-orchestrator/orchestrator/config.py:93-98 | the YAML file is used exactly when a non-empty path is given and exists; otherwise the environment |
| Config.Failures | workflow-orchestrator/orchestrator/config.py:74-90 | each check's error is present exactly when its condition fails, and every error present is the one of a failing check carrying the config's own value; no error twice; checks in source order; empty iff all four conditions hold |
| Config.Validate | workflow-orchestrator/orchestrator/config.py:74-90 | one message per failing check, in order; empty iff the key and repo are non-empty and both models are "claude" or "codex" |
| DockerManager.CheckAgentStatus | workflow-orchestrator/orchestrator/docker_manager.py:179-203 | None when the status file is missing, not JSON or not a valid status; otherwise the decoded status |
| DockerManager.Poll | workflow-orchestrator/orchestrator/docker_manager.py:243-274 | one or two events; a stopped container gives only "exited"; a poll that stops yields a single final event |
| DockerManager.Events | workflow-orchestrator/orchestrator/docker_manager.py:234-274 | some event exactly when there was a poll, and at most two per poll |
| DockerManager.PollExited | workflow-orchestrator/orchestrator/docker_manager.py:245-249 | a stopped container yields exactly "exited" and stops, whatever the directory holds |
| DockerManager.PollClassifies | workflow-orchestrator/orchestrator/docker_manager.py:251-274 | "complete"/"error" yield that event alone and stop; "blocked" yields "blocked" then "running" and continues; anything else, or no status, yields "running" |
| DockerManager.PollShape | workflow-orchestrator/orchestrator/docker_manager.py:243-274 | one or two events per poll; the poll stops exactly when its last event is final |
| DockerManager.EventsShape | workflow-orchestrator/orchestrator/docker_manager.py:243-274 | over a run of polls only the last event can be final, and every "blocked" is followed by "running" |
| DockerManager.BlockedRepeats | workflow-orchestrator/orchestrator/docker_manager.py:256-260 | the status file is not removed, so a running container whose status stays "blocked" yields "blocked", "running" on every poll |
| DockerManager.WaitForContainer | workflow-orchestrator/orchestrator/docker_manager.py:234-274 | the polling loop yields exactly `Events` of the polls, and when it stops early its last event is final |
| DockerManager.WorkflowDir.WriteAgentResponse | workflow-orchestrator/orchestrator/docker_manager.py:205-221 | the resume file holds exactly `{"response": response}`; no other file changes |
| DockerManager.WorkflowDir.ClearStatusFiles | workflow-orchestrator/orchestrator/docker_manager.py:223-232 | the directory becomes `Cleared` of the old one |
| DockerManager.Cleared | workflow-orchestrator/orchestrator/docker_manager.py:223-232 | both protocol files are gone; every other file is kept with its contents |
| DockerManager.ClearedIdempotent | workflow-orchestrator/orchestrator/docker_manager.py:223-232 | clearing twice is clearing once, and afterwards no status is reported |
| DockerManager.ResponseKeepsStatus | workflow-orchestrator/orchestrator/docker_manager.py:205-221 | writing a response leaves the reported agent status unchanged |
| DockerManager.AgentEnv | workflow-orchestrator/orchestrator/docker_manager.py:38-48 | the six fixed variables in order (`LLM_TYPE` the agent, `GIT_REPO_URL`, `GIT_BRANCH`, `CLAUDE_SKIP_PERMISSIONS`, `CODEX_YOLO`, `CODEX_APPROVAL_POLICY`), then GITHUB_TOKEN exactly when a non-empty token is given |
| DockerManager.Mounts | workflow-orchestrator/orchestrator/docker_manager.py:63-70 | six `-v` pairs: the workflow directory on the workspace first, then each credential directory below the current directory on its place under `/home/node` |
| DockerManager.CredentialArgs | workflow-orchestrator/orchestrator/docker_manager.py:64-69 | one `-v CWD/HOST:CONTAINER` pair per credential, in order |
| DockerManager.StartAgentCommand | workflow-orchestrator/orchestrator/docker_manager.py:51-77 | `docker run -d --name N -w BASE`, then `-e K=V` per environment entry in order, the mounts, the image, the agent and the prompt |
| DockerManager.LogsCommand | workflow-orchestrator/orchestrator/docker_manager.py:91-96 | `docker logs ID`, plus `--tail N` exactly when `tail` is truthy |
| DockerManager.StopCommand | workflow-orchestrator/orchestrator/docker_manager.py:154-156 | `docker stop -t TIMEOUT ID`: the three fixed words, the timeout, the container |
| DockerManager.RemoveCommand | workflow-orchestrator/orchestrator/docker_manager.py:164-171 | `docker rm`, then `-f` exactly when forced, then the container |
| DockerManager.RunningAnswer | workflow-orchestrator/orchestrator/docker_manager.py:124-132 | running iff the stripped, lowercased output is "true"; a failed inspection means not running |
| PrUrl.FromLogs | workflow-orchestrator/orchestrator/workflow_manager.py:779-785 | a found URL matches the pull-request pattern and occurs in the logs; None means no match anywhere |
| PrUrl.SearchLeftmostLongest | workflow-orchestrator/orchestrator/workflow_manager.py:779-785 | the search returns the leftmost match, with its maximal number; no match starts earlier |
| PrUrl.FromLogsLeftmostLongest | workflow-orchestrator/orchestrator/workflow_manager.py:779-785 | the URL found is the leftmost match in the logs, with all of its digits |
| PrUrl.MatchAtSound | workflow-orchestrator/orchestrator/workflow_manager.py:779-785 | what the matcher finds at a position is a pull-request URL whose number cannot be extended |
| PrUrl.MatchAtComplete | workflow-orchestrator/orchestrator/workflow_manager.py:779-785 | every match starting at a position is found there, and none is longer |
| PrUrl.Extract | workflow-orchestrator/orchestrator/workflow_manager.py:766-777 | a URL in the non-empty status message wins; otherwise the logs are searched |
| BranchName.Sanitize | workflow-orchestrator/orchestrator/workflow_manager.py:632-633 | only kept characters (alphanumerics, spaces, '-') remain, and every kept character of the input appears |
| BranchName.SanitizeFilters | workflow-orchestrator/orchestrator/workflow_manager.py:632-633 | sanitising is a filter: it distributes over concatenation and keeps a single character exactly when it is kept, so order and multiplicity are preserved |
| BranchName.SplitWords | workflow-orchestrator/orchestrator/workflow_manager.py:634 | `split()` gives no empty word |
| BranchName.Generate | workflow-orchestrator/orchestrator/workflow_manager.py:626-636 | `"feature/" + identifier + "-" + slug`, with the slug at most 50 characters |
| BranchName.JoinWordsIsCollapse | workflow-orchestrator/orchestrator/workflow_manager.py:634 | joining the words with '-' collapses every whitespace run between words to one '-' and drops the outer ones |
| BranchName.SlugProperties | workflow-orchestrator/orchestrator/workflow_manager.py:626-636 | the slug has at most 50 characters, all lowercase letters, digits or '-' and none whitespace; it is the collapsed, sanitised, lowercased title cut to 50 |
| WorkflowManager.StartWorkflow | workflow-orchestrator/orchestrator/workflow_manager.py:88-149 | a failed container start fails the workflow with its message; otherwise the container id and name are recorded; planning is monitored iff the container and the planner both start |
| WorkflowManager.StartExecution | workflow-orchestrator/orchestrator/workflow_manager.py:211-238 | EXECUTING and monitored when the executor starts; otherwise FAILED with the exception text, as if EXECUTING had never been set; the count is unchanged |
| WorkflowManager.StartReview | workflow-orchestrator/orchestrator/workflow_manager.py:313-341 | one more reviewer run counted; REVIEWING and monitored when the reviewer starts, otherwise FAILED with the exception text and the run still counted |
| WorkflowManager.Rework | workflow-orchestrator/orchestrator/workflow_manager.py:433-459 | the executor is started with the feedback; EXECUTING and monitored on success, FAILED with the exception text otherwise |
| WorkflowManager.Complete | workflow-orchestrator/orchestrator/workflow_manager.py:273-280 | COMPLETED, with the PR URL replaced only when one was found |
| WorkflowManager.CreatePrAndComplete | workflow-orchestrator/orchestrator/workflow_manager.py:461-503 | as intended: COMPLETED with the URL from the agent's logs when the PR agent starts, FAILED with the exception text otherwise; every monitor returns |
| WorkflowManager.CreatePrAndCompleteAsWritten | workflow-orchestrator/orchestrator/workflow_manager.py:461-503 | as written: always FAILED, with the NameError's text once the agent has started |
| WorkflowManager.ApprovalAlwaysFailsAsWritten | workflow-orchestrator/orchestrator/workflow_manager.py:479 | when the PR agent starts, the code as written ends FAILED where the intended version ends COMPLETED |
| WorkflowManager.PlanningStep | workflow-orchestrator/orchestrator/workflow_manager.py:151-209 | one planning event: the count and maximum are unchanged, "running" changes nothing, and the reviewer is never started |
| WorkflowManager.ExecutionStep | workflow-orchestrator/orchestrator/workflow_manager.py:240-311 | one execution event: the count grows by one exactly on "complete" with review on, "running" changes nothing, planning never restarts |
| WorkflowManager.ReworkOnComplete | workflow-orchestrator/orchestrator/workflow_manager.py:366-392 | unreadable feedback fails the workflow; loaded feedback is recorded; at the bound REVIEW_BLOCKED with the block's reason, question naming the count, three options and time, and the run ends; below it the executor runs again |
| WorkflowManager.ReviewOnExit | workflow-orchestrator/orchestrator/workflow_manager.py:409-431 | no feedback file is an approval; otherwise at the bound REVIEW_BLOCKED with the block's reason, question, "Approve"/"Cancel" and time, another executor run below it |
| WorkflowManager.ReviewStep | workflow-orchestrator/orchestrator/workflow_manager.py:343-431 | one review event: the count and maximum are unchanged, "running" changes nothing, planning never restarts |
| WorkflowManager.Step | workflow-orchestrator/orchestrator/workflow_manager.py:151-431 | no monitor running means no change; the count grows by exactly one when a reviewer run starts and is otherwise unchanged; the maximum never changes |
| WorkflowManager.Run | workflow-orchestrator/orchestrator/workflow_manager.py:151-431 | over a run the count never goes down and grows by at most one per event; the maximum never changes |
| WorkflowManager.PlanningOutcomes | workflow-orchestrator/orchestrator/workflow_manager.py:151-209 | "blocked" waits in PLANNING_BLOCKED with the message or "Planner needs input"; "complete" records the output file and starts the executor; "error" fails with the message; "exited" goes on with "plan.md" iff it exists, else fails with the log tail |
| WorkflowManager.ExecutionWithoutReview | workflow-orchestrator/orchestrator/workflow_manager.py:262-311 | without review "complete" always ends COMPLETED, with the URL set only when found; "exited" ends COMPLETED iff the logs hold a URL, else FAILED |
| WorkflowManager.ReworkVerdict | workflow-orchestrator/orchestrator/workflow_manager.py:365-367 | a message containing "needs_rework" in any letter case asks for rework; an absent or empty message does not |
| WorkflowManager.ApprovalCreatesPr | workflow-orchestrator/orchestrator/workflow_manager.py:365-431 | an approval creates the PR and ends the run: COMPLETED when the PR agent starts, FAILED otherwise |
| WorkflowManager.ReworkAtAndBelowBound | workflow-orchestrator/orchestrator/workflow_manager.py:366-392 | rework at or past the bound goes to REVIEW_BLOCKED and stops without re-running the executor; below it the executor runs again |
| WorkflowManager.Bound | workflow-orchestrator/orchestrator/workflow_manager.py:379-387 | the bound is the configured maximum when it is at least 1, else 1 |
| WorkflowManager.StepPreservesBound | workflow-orchestrator/orchestrator/workflow_manager.py:317-421 | one step keeps the count within the bound, and strictly below it while the executor awaits review |
| WorkflowManager.RunPreservesBound | workflow-orchestrator/orchestrator/workflow_manager.py:317-421 | over any finite run the reviewer never runs more often than the bound allows |
| WorkflowManager.StartEstablishesBound | workflow-orchestrator/orchestrator/workflow_manager.py:88-121 | a freshly started workflow satisfies the rework invariant |
| WorkflowManager.IdleIsFinal | workflow-orchestrator/orchestrator/workflow_manager.py:151-431 | once every monitor has returned, further events change nothing |
| WorkflowManager.TerminalStopsMonitors | workflow-orchestrator/orchestrator/workflow_manager.py:151-431 | a step that reaches a terminal state also ends every monitor |
| WorkflowManager.StepKeepsPhaseConsistent | workflow-orchestrator/orchestrator/workflow_manager.py:151-431 | the running monitor and the recorded state stay in agreement across one step |
| WorkflowManager.RunKeepsPhaseConsistent | workflow-orchestrator/orchestrator/workflow_manager.py:151-431 | the running monitor and the recorded state agree over any finite run |
| WorkflowManager.StartIsPhaseConsistent | workflow-orchestrator/orchestrator/workflow_manager.py:88-149 | the running monitor and the recorded state agree after `start_workflow` |
| WorkflowManager.Responded | workflow-orchestrator/orchestrator/workflow_manager.py:505-528 | refused with "Workflow ID is not blocked" iff the state is not PLANNING_BLOCKED or EXECUTION_BLOCKED; otherwise the answer recorded, the block cleared, the blocked phase resumed with the update time set, and every other field unchanged |
| WorkflowManager.RespondOnce | workflow-orchestrator/orchestrator/workflow_manager.py:505-528 | after a response the workflow is no longer blocked, and a second response is refused |
| WorkflowManager.ExecutorPrompt | workflow-orchestrator/orchestrator/workflow_manager.py:667-698 | the prompt ends with the template; the feedback note comes first exactly when rework with recorded feedback asks for it |
| WorkflowManager.PromptCarriesFeedback | workflow-orchestrator/orchestrator/workflow_manager.py:693-696 | the feedback text appears in a rework prompt; without rework, or without feedback, the prompt is the template |
| WorkflowManager.SortByRecencySorted | workflow-orchestrator/orchestrator/workflow_manager.py:622-623 | the sort returns the same workflows, most recently updated first |
| WorkflowManager.Selected | workflow-orchestrator/orchestrator/workflow_manager.py:611-621 | a workflow is selected exactly when it is loaded and matches the filter |
| WorkflowManager.SelectedFilters | workflow-orchestrator/orchestrator/workflow_manager.py:611-621 | the selection is a filter: it distributes over concatenation of the listing and keeps one entry exactly when it is a matching workflow |
| WorkflowManager.SelectedCounts | workflow-orchestrator/orchestrator/workflow_manager.py:611-621 | each matching workflow is selected as many times as the listing holds it, others never |
| WorkflowManager.ListWorkflows | workflow-orchestrator/orchestrator/workflow_manager.py:609-624 | exactly the loaded workflows in the requested state (all without a filter), as a permutation sorted by `updated_at` descending, each as many times as the listing holds it |
| WorkflowManager.ImageSection | workflow-orchestrator/orchestrator/workflow_manager.py:569-573 | five lines per image, headed "## name" |
| WorkflowManager.ScreenshotsManifest | workflow-orchestrator/orchestrator/workflow_manager.py:551-587 | the manifest is the header, one section per image file in order, then the footer |
| WorkflowManager.ManifestListsImages | workflow-orchestrator/orchestrator/workflow_manager.py:564-573 | every image file has its heading in the manifest |
| WorkflowManager.ManifestOnlyImages | workflow-orchestrator/orchestrator/workflow_manager.py:564-573 | every heading in the sections names an image file |
| WorkflowManager.Manager.Fail | workflow-orchestrator/orchestrator/workflow_manager.py:186-190 | FAILED with the message; every monitor returns |
| WorkflowManager.Manager.Block | workflow-orchestrator/orchestrator/workflow_manager.py:163-172 | the blocked state, then a fresh block; the monitor keeps waiting |
| WorkflowManager.Manager.CompleteWith | workflow-orchestrator/orchestrator/workflow_manager.py:273-280 | COMPLETED, with the URL when found; every monitor returns |
| WorkflowManager.Manager.RunPlanningPhase | workflow-orchestrator/orchestrator/workflow_manager.py:123-149 | planning is monitored when the planner starts; otherwise FAILED with the exception text |
| WorkflowManager.Manager.StartWorkflowOn | workflow-orchestrator/orchestrator/workflow_manager.py:88-121 | the object and the manager end as `StartWorkflow` says |
| WorkflowManager.Manager.RunExecutionPhase | workflow-orchestrator/orchestrator/workflow_manager.py:211-238 | the object and the manager end as `StartExecution` says |
| WorkflowManager.Manager.RunReviewPhase | workflow-orchestrator/orchestrator/workflow_manager.py:313-341 | the object and the manager end as `StartReview` says |
| WorkflowManager.Manager.RunExecutionWithFeedback | workflow-orchestrator/orchestrator/workflow_manager.py:433-459 | the object and the manager end as `Rework` says |
| WorkflowManager.Manager.CreatePrAndCompleteOn | workflow-orchestrator/orchestrator/workflow_manager.py:461-503 | the object and the manager end as `CreatePrAndComplete` says |
| WorkflowManager.Manager.MonitorPlanning | workflow-orchestrator/orchestrator/workflow_manager.py:151-209 | one event of the planning monitor mutates the object as `PlanningStep` says |
| WorkflowManager.Manager.MonitorExecution | workflow-orchestrator/orchestrator/workflow_manager.py:240-311 | one event of the execution monitor mutates the object as `ExecutionStep` says |
| WorkflowManager.Manager.ReworkOnCompleteOn | workflow-orchestrator/orchestrator/workflow_manager.py:366-392 | the rework branch of a "complete" verdict mutates the object as `ReworkOnComplete` says |
| WorkflowManager.Manager.ReviewOnExitOn | workflow-orchestrator/orchestrator/workflow_manager.py:409-431 | the "exited" branch of the review monitor mutates the object as `ReviewOnExit` says |
| WorkflowManager.Manager.MonitorReview | workflow-orchestrator/orchestrator/workflow_manager.py:343-431 | one event of the review monitor mutates the object as `ReviewStep` says |
| WorkflowManager.Manager.HandleEvent | workflow-orchestrator/orchestrator/workflow_manager.py:151-431 | one event handled by the running monitor, as `Step` says |
| WorkflowManager.Manager.Drive | workflow-orchestrator/orchestrator/workflow_manager.py:151-431 | the monitors consuming a finite run end as `Run` says, so the bound and phase lemmas apply |
| WorkflowManager.Manager.RespondToWorkflow | workflow-orchestrator/orchestrator/workflow_manager.py:505-528 | refused with the ValueError's text and nothing changed, or the resume file written and the object as `Responded` says |
| LinearClient.FileNameFor | workflow-orchestrator/orchestrator/linear_client.py:155-157 | the title when non-empty; otherwise a name with no '/' or '?' taken from the URL |
| LinearClient.FileNameFromUrl | workflow-orchestrator/orchestrator/linear_client.py:155-157 | without a title, the name is the URL's last '/' segment with the query removed |
| LinearClient.FileNameFromPlainUrl | workflow-orchestrator/orchestrator/linear_client.py:155-157 | without a title or query, the name is the URL's last segment |
| LinearClient.Downloaded | workflow-orchestrator/orchestrator/linear_client.py:135-170 | at most one path per attachment |
| LinearClient.DownloadAttachments | workflow-orchestrator/orchestrator/linear_client.py:135-170 | the loop reports exactly `Downloaded` |
| LinearClient.DownloadedExactly | workflow-orchestrator/orchestrator/linear_client.py:135-170 | every attachment with a URL that was saved is reported under its derived name, and every path reported is one of those |
| LinearClient.FirstMatch | workflow-orchestrator/orchestrator/linear_client.py:109-113 | the first state whose name equals the target ignoring case, or none |
| LinearClient.UpdateIssueState | workflow-orchestrator/orchestrator/linear_client.py:91-133 | the first matching state's id is sent; with no match (or an empty id) no mutation is issued |
| LinearClient.MetaLines | workflow-orchestrator/orchestrator/linear_client.py:179-194 | one metadata line per present part |
| LinearClient.AttachmentLines | workflow-orchestrator/orchestrator/linear_client.py:211-230 | one line, or three for an embedded image |
| LinearClient.AttachmentSection | workflow-orchestrator/orchestrator/linear_client.py:208-233 | present exactly when there are attachments, opening with the heading and closing with the note for agents |
| LinearClient.FormatIssueAsMarkdown | workflow-orchestrator/orchestrator/linear_client.py:172-235 | the text is the header, metadata, description and attachment lines joined by newlines |
| LinearClient.MarkdownLines | workflow-orchestrator/orchestrator/linear_client.py:172-235 | the header lines open the text; it ends with the note for agents when there are attachments (which then have their heading) and with an empty line otherwise |
| LinearClient.MarkdownLayout | workflow-orchestrator/orchestrator/linear_client.py:176-203 | the title line and URL line open the text; a missing or empty description renders as "_No description provided_" |
| LinearClient.LabelsLine | workflow-orchestrator/orchestrator/linear_client.py:192-194 | a labels line joined by ", " appears last among the metadata exactly when there are labels |
| LinearClient.AttachmentRendering | workflow-orchestrator/orchestrator/linear_client.py:211-230 | with a directory an image name is embedded as `![title](./attachments/name)` and any other name is a link; without one it is `- **title**: url` |
| LinearClient.AttachmentsBodyLength | workflow-orchestrator/orchestrator/linear_client.py:211-230 | one to three lines per attachment, exactly one each without a directory |
| Cli.KeepBlocked | workflow-orchestrator/cli/cli.py:81-85 | a workflow is kept exactly when it is in the list and in PLANNING_BLOCKED or EXECUTION_BLOCKED |
| Cli.KeepBlockedFilters | workflow-orchestrator/cli/cli.py:81-85 | the comprehension is a filter: it distributes over concatenation and keeps one workflow exactly when it is blocked |
| Cli.KeepBlockedCounts | workflow-orchestrator/cli/cli.py:81-85 | each blocked workflow is kept as many times as the list holds it, others never |
| Cli.KeepBlockedSorted | workflow-orchestrator/cli/cli.py:81-85 | filtering keeps the most-recent-first order |
| Cli.ListedWorkflows | workflow-orchestrator/cli/cli.py:79-90 | an unknown `--state` raises ValueError with its message; otherwise the shown workflows, most recent first, each as many times as the listing holds it and no other |
| Cli.TruncateBranch | workflow-orchestrator/cli/cli.py:107 | the name itself when at most 40 characters, else its first 40 then "..." |
| Cli.TimeAgo | workflow-orchestrator/cli/cli.py:454-467 | the text ends in " ago" after the unit letter chosen by the thresholds 60, 3600 and 86400 seconds |
| Cli.TimeAgoReading | workflow-orchestrator/cli/cli.py:454-467 | the reading names the largest whole unit with truncating division: seconds under 60, then minutes, hours, days |
| Cli.Row | workflow-orchestrator/cli/cli.py:97-121 | five columns, plus the question cut to 60 characters and "..." when `--blocked` and a block is recorded; fails when that question is None |
| Cli.RowsExactly | workflow-orchestrator/cli/cli.py:97-121 | one row per workflow in order, or the failure of the first row that fails |
| Cli.TableRows | workflow-orchestrator/cli/cli.py:97-121 | the loop builds exactly `Rows` |
| Cli.RowsErrorPersists | workflow-orchestrator/cli/cli.py:97-121 | once a row fails, the whole table fails with its error |
| Cli.SessionTarget | workflow-orchestrator/cli/cli.py:312-330 | refused when no container is recorded or it is not running; otherwise the phase label and the agent |
| Cli.PhaseLabelAgrees | workflow-orchestrator/cli/cli.py:320-325 | the label is "planning" exactly in PLANNING, PLANNING_BLOCKED and PLANNED, which is when the planning monitor runs |
| Cli.RespondCommand | workflow-orchestrator/cli/cli.py:198-239 | exit 0 iff the workflow is blocked with a block recorded and the answer is non-empty, and then the answer is submitted; otherwise exit 1 with nothing changed |
| Cli.CancelCommand | workflow-orchestrator/cli/cli.py:270-299 | a terminal workflow gives 1 and is unchanged; otherwise `docker stop` and then `docker rm -f` are issued for a recorded container (the removal skipped only when an exception escapes `stop_container`), and the workflow becomes CANCELLED regardless |

## Left out

- Docker and `subprocess`:
  - Scope: `docker run/logs/inspect/stop/rm`, `follow_logs`, `get_container_status` and `get_container_exit_code`.
  - Reason: external processes.
  - Instead: the model builds the argument vectors. Whether the container runs, its logs and whether a command raised are inputs (`World`, `Observation`, `stopRaised`). A failing `docker stop` or `docker rm` is caught and logged by `stop_container`/`remove_container`, so it changes nothing the model tracks.
- `start_workflow_container`, `exec_agent_in_container`, `start_interactive_session` and `open_shell_in_container` are not part of this model, because their definitions are not part of the code. Their results are inputs (`World.exec`, `container`).
- Timing:
  - `time.sleep` and the time between polls are left out.
  - The unbounded `_wait_for_resume` loop is also left out: a "blocked" poll is treated as if the resume file had appeared.
  - The `wait_for_container` loop runs over a finite sequence of polls.
- Concurrency: the interplay between `cli respond` and a running orchestrator is not modelled.
- Linear GraphQL and HTTP are network I/O:
  - `_execute_query`, `get_issue` and `create_comment` are left out.
  - The mutation of `update_issue_state` is left out; only the choice of state id is modelled.
  - The `requests.get` downloads are left out; whether each file was saved is an input.
- File and directory I/O:
  - Persisting `metadata.json` and `load_workflow` are left out.
  - The directory scan of `list_workflows` is replaced by its sequence of loaded workflows, where an entry without `metadata.json` is skipped. A `metadata.json` that is not JSON or does not decode makes `load_workflow` raise (workflow_manager.py:605-607, 617), so `list_workflows` raises too; the model has no entry for that and cannot represent it.
  - Template reads, YAML parsing and `os.getenv` are replaced by the environment and documents passed as values.
  - A path join is `dir + "/" + name`.
- Prompt templates and their contents are left out, including the `str.format` call in `_get_reviewer_prompt`.
  - Its default template holds literal JSON braces, so that call can raise.
  - Only the feedback note the executor prompt prepends is modelled.
  - `_get_planner_prompt`, `_get_pr_creation_prompt` and `_update_linear_ticket` are also left out: they are prompt text and network I/O.
- Clocks and identifiers:
  - `datetime.utcnow()` timestamps and `uuid` ids are opaque string inputs.
  - `_time_ago` works on whole elapsed seconds, not on a float `total_seconds`.
  - An `updated_at` that does not parse is shown as is (`UpdatedColumn`).
- Logging, `print`, `tabulate` output, `input()` prompts and argparse dispatch are left out. The typed answer of `respond` is an input.
- `Models.FromDict`:
  - A JSON value of the wrong type in a field is rejected. Python's dataclass would store it.
  - A JSON `null` in a non-optional string field is also rejected.
- `Config.FromYaml` rejects ill-typed values (`WellTyped` fails) for the same reason as `FromDict`, where Python would store them.
- `Models.AgentStatusFromJson` rejects a status document whose optional fields have the wrong type (`{"status": "blocked", "question": 5}`), where `cls(**data)` stores the value; `DockerManager.CheckAgentStatus` and `Models.AgentStatusFromFile` then report no status, and `wait_for_container` would instead yield the event with the odd value.
- `Models.ToDict` has no contract of its own: `Models.ToDictKeys` states its keys and `Models.RoundTrip` states that `FromDict` inverts it.
- Unicode is reduced to ASCII:
  - `Text.Lower`, `Text.IsSpace`, `BranchName.Sanitize` and `PrUrl` work on ASCII. Python's `lower`, `isspace`, `isalnum` and the regex class `\d` also accept non-ASCII characters (other Unicode letters, spaces and decimal digits).
  - `Text.LexLe` orders strings by code point, as Python does.
- `Cli.Row`: when `--blocked` is given and a recorded block has no question, Python raises TypeError. The model returns an error result instead.
- `Cli.RespondCommand`: a blocked workflow without a recorded block makes Python raise AttributeError while it prints the question. The model treats this as exit code 1 with nothing changed; in Python it is an uncaught exception.
- `LinearClient.FormatIssueAsMarkdown` takes the issue already decoded into `Issue`. Reading GraphQL nodes with `.get` is not modelled.

## Findings

| source | as written | input that shows it | evidently intended | confidence | as-written member | corrected member |
|---|---|---|---|---|---|---|
| workflow-orchestrator/orchestrator/workflow_manager.py:479 | `time.sleep(5)` is called but `time` is never imported, so the NameError is caught at lines 500-503 and the workflow is marked FAILED | any approved review, e.g. a "complete" status whose message lacks "needs_rework", with the PR agent started successfully | wait, then read the PR URL from the logs and mark the workflow COMPLETED | not executed | WorkflowManager.CreatePrAndCompleteAsWritten | WorkflowManager.CreatePrAndComplete |

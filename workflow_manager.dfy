/**
 * The phase transition rules of the workflow manager (orchestrator/workflow_manager.py).
 *
 * The source runs each phase as a loop over `wait_for_container`'s events; a handler that
 * starts the next phase calls that phase's loop from inside its own and then breaks, so
 * control only ever returns to unwind. Here that call chain is flattened: `Phase` says which
 * monitor loop is consuming events, `Step` handles one event (starting the next phase when
 * the source would), and `Run` folds a finite sequence of events. What the outside world
 * answers during a step (the time, whether `exec` into the container succeeded, which files
 * exist, the container's logs) is an input, `World`.
 */
module WorkflowManager {
  import opened Wrappers
  import opened Models
  import Text
  import PrUrl
  import opened DockerManager

  /** Which monitor loop is consuming the container's events; `Idle` once every loop has
      returned. */
  datatype Phase = Idle | MonitoringPlanning | MonitoringExecution | MonitoringReview

  /** What `exec_agent_in_container` did: started the agent, or raised with this text. */
  datatype ExecResult = ExecOk | ExecFailed(reason: string)

  /** `.review-feedback.json`: absent, present but not JSON (`json.load` raises with this
      text), or loaded and re-serialised by `json.dumps(..., indent=2)`. */
  datatype Feedback = NoFeedback | FeedbackUnreadable(error: string) | FeedbackLoaded(dumped: string)

  /** The answers of the outside world during one step: the current time, the result of the
      one `exec` the step may start, whether `plan.md` exists, the review feedback file, the
      full container logs and the last 50 lines of them. */
  datatype World = World(now: string, exec: ExecResult, planExists: bool, feedback: Feedback,
                         logs: string, tailLogs: string)

  datatype Outcome = Outcome(phase: Phase, record: WorkflowRecord)

  const NameErrorTime := "name 'time' is not defined"

  // ---------------------------------------------------------------------------
  // Phase starters

  /** `_run_execution_phase`: EXECUTING, then the executor is started; if that raises, the
      workflow fails with the exception text. */
  function StartExecution(r: WorkflowRecord, w: World): (o: Outcome)
    ensures o.record.reviewIteration == r.reviewIteration
    ensures w.exec.ExecOk? ==> o == Outcome(MonitoringExecution, UpdatedState(r, Executing, w.now, None))
    ensures w.exec.ExecFailed? ==> o == Outcome(Idle, UpdatedState(r, Failed, w.now, Some(w.exec.reason)))
  {
    var executing := UpdatedState(r, Executing, w.now, None);
    match w.exec
    case ExecOk => Outcome(MonitoringExecution, executing)
    case ExecFailed(e) => Outcome(Idle, UpdatedState(executing, Failed, w.now, Some(e)))
  }

  /** `_run_review_phase`: REVIEWING and one more reviewer run counted, then the reviewer is
      started; if that raises, the workflow fails. */
  function StartReview(r: WorkflowRecord, w: World): (o: Outcome)
    ensures o.record.reviewIteration == r.reviewIteration + 1
    ensures w.exec.ExecOk? ==> o.phase == MonitoringReview && o.record.state == Reviewing
    ensures w.exec.ExecFailed? ==> o == Outcome(Idle, UpdatedState(r, Failed, w.now, Some(w.exec.reason)).(reviewIteration := r.reviewIteration + 1))
  {
    var reviewing := UpdatedState(r, Reviewing, w.now, None).(reviewIteration := r.reviewIteration + 1);
    match w.exec
    case ExecOk => Outcome(MonitoringReview, reviewing)
    case ExecFailed(e) => Outcome(Idle, UpdatedState(reviewing, Failed, w.now, Some(e)))
  }

  /** `_run_execution_with_feedback`: the executor is started first and only then is the
      state EXECUTING; if starting raises, the workflow fails. */
  function Rework(r: WorkflowRecord, w: World): (o: Outcome)
    ensures o.record.reviewIteration == r.reviewIteration
    ensures w.exec.ExecOk? ==> o == Outcome(MonitoringExecution, UpdatedState(r, Executing, w.now, None))
    ensures w.exec.ExecFailed? ==> o == Outcome(Idle, UpdatedState(r, Failed, w.now, Some(w.exec.reason)))
  {
    match w.exec
    case ExecOk => Outcome(MonitoringExecution, UpdatedState(r, Executing, w.now, None))
    case ExecFailed(e) => Outcome(Idle, UpdatedState(r, Failed, w.now, Some(e)))
  }

  /** COMPLETED, with the PR URL recorded only when one was found. */
  function Complete(r: WorkflowRecord, url: Option<string>, now: string): (u: WorkflowRecord)
    ensures u.state == Completed
    ensures u.prUrl == if url.Some? then url else r.prUrl
  {
    var done := UpdatedState(r, Completed, now, None);
    if url.Some? then done.(prUrl := url) else done
  }

  /** `_create_pr_and_complete` as intended: the PR agent is started, the URL is looked for
      in the logs, and the workflow is COMPLETED, with `pr_url` only if a URL was found. */
  function CreatePrAndComplete(r: WorkflowRecord, w: World): (o: Outcome)
    ensures o.phase == Idle
    ensures o.record.reviewIteration == r.reviewIteration
    ensures w.exec.ExecOk? ==> o.record == Complete(r, PrUrl.FromLogs(w.logs), w.now)
    ensures w.exec.ExecFailed? ==> o.record == UpdatedState(r, Failed, w.now, Some(w.exec.reason))
  {
    match w.exec
    case ExecOk => Outcome(Idle, Complete(r, PrUrl.FromLogs(w.logs), w.now))
    case ExecFailed(e) => Outcome(Idle, UpdatedState(r, Failed, w.now, Some(e)))
  }

  /** `_create_pr_and_complete` as written: `time` is not imported, so once the agent has been
      started the call `time.sleep(5)` raises NameError, which the handler turns into FAILED. */
  function CreatePrAndCompleteAsWritten(r: WorkflowRecord, w: World): (o: Outcome)
    ensures o.phase == Idle && o.record.state == Failed
    ensures w.exec.ExecOk? ==> o.record.errorMessage == Some(NameErrorTime)
  {
    match w.exec
    case ExecOk => Outcome(Idle, UpdatedState(r, Failed, w.now, Some(NameErrorTime)))
    case ExecFailed(e) => Outcome(Idle, UpdatedState(r, Failed, w.now, Some(e)))
  }

  /** As written, an approved review never completes: every approval ends FAILED, whatever
      the logs hold; as intended, a successful start always completes. */
  lemma ApprovalAlwaysFailsAsWritten(r: WorkflowRecord, w: World)
    requires w.exec.ExecOk?
    ensures CreatePrAndCompleteAsWritten(r, w).record.state == Failed
    ensures CreatePrAndComplete(r, w).record.state == Completed
  {
  }

  // ---------------------------------------------------------------------------
  // The monitors

  /** One event of `_monitor_planning`. */
  function PlanningStep(r: WorkflowRecord, ev: WaitEvent, w: World): (o: Outcome)
    ensures o.record.reviewIteration == r.reviewIteration
    ensures o.record.maxReviewIterations == r.maxReviewIterations
    ensures ev.Running? ==> o == Outcome(MonitoringPlanning, r)
    ensures o.phase != MonitoringReview
  {
    match ev
    case Running => Outcome(MonitoringPlanning, r)
    case BlockedEvent(s) =>
      Outcome(MonitoringPlanning,
              WithBlock(UpdatedState(r, PlanningBlocked, w.now, None),
                        Text.OrElse(s.message, "Planner needs input"), s.question, s.options, w.now))
    case CompleteEvent(s) =>
      StartExecution(UpdatedState(r, Planned, w.now, None).(planFilePath := s.outputFile), w)
    case ErrorEvent(s) => Outcome(Idle, UpdatedState(r, Failed, w.now, s.message))
    case Exited =>
      if w.planExists then StartExecution(UpdatedState(r, Planned, w.now, None).(planFilePath := Some("plan.md")), w)
      else Outcome(Idle, UpdatedState(r, Failed, w.now, Some("Planner failed. Logs:\n" + w.tailLogs)))
  }

  /** One event of `_monitor_execution`; `reviewEnabled` is the configuration's switch. */
  function ExecutionStep(r: WorkflowRecord, ev: WaitEvent, w: World, reviewEnabled: bool): (o: Outcome)
    ensures o.record.reviewIteration == r.reviewIteration + (if ev.CompleteEvent? && reviewEnabled then 1 else 0)
    ensures o.record.maxReviewIterations == r.maxReviewIterations
    ensures ev.Running? ==> o == Outcome(MonitoringExecution, r)
    ensures o.phase != MonitoringPlanning
  {
    match ev
    case Running => Outcome(MonitoringExecution, r)
    case BlockedEvent(s) =>
      Outcome(MonitoringExecution,
              WithBlock(UpdatedState(r, ExecutionBlocked, w.now, None),
                        Text.OrElse(s.message, "Executor needs input"), s.question, s.options, w.now))
    case CompleteEvent(s) =>
      if reviewEnabled then StartReview(r, w)
      else Outcome(Idle, Complete(r, PrUrl.Extract(s.message, w.logs), w.now))
    case ErrorEvent(s) => Outcome(Idle, UpdatedState(r, Failed, w.now, s.message))
    case Exited =>
      var url := PrUrl.FromLogs(w.logs);
      if url.Some? then Outcome(Idle, Complete(r, url, w.now))
      else Outcome(Idle, UpdatedState(r, Failed, w.now, Some("Executor failed. Logs:\n" + Text.TakeLast(w.logs, 1000))))
  }

  /** The reviewer asked for rework: `needs_rework` occurs in the lowercased message. */
  predicate IsReworkVerdict(message: Option<string>) {
    Text.Truthy(message) && Text.Contains(Text.Lower(message.value), "needs_rework")
  }

  const MaxIterationsReason := "Max review iterations reached"
  const MaxIterationsOptions := ["Approve and create PR anyway", "Cancel workflow", "Manual intervention needed"]

  /** A rework verdict on "complete": the feedback is loaded (a file that is not JSON fails
      the phase), then the iteration bound decides between REVIEW_BLOCKED and another
      executor run. */
  function ReworkOnComplete(r: WorkflowRecord, w: World): (o: Outcome)
    ensures o.record.reviewIteration == r.reviewIteration
    ensures o.record.maxReviewIterations == r.maxReviewIterations
    ensures w.feedback.FeedbackUnreadable? ==> o == Outcome(Idle, UpdatedState(r, Failed, w.now, Some(w.feedback.error)))
    ensures w.feedback.FeedbackLoaded? ==> o.record.reviewFeedback == Some(w.feedback.dumped)
    ensures !w.feedback.FeedbackUnreadable? && r.reviewIteration >= r.maxReviewIterations ==>
      && o.phase == Idle && o.record.state == ReviewBlocked
      && o.record.blockInfo == Some(BlockInfo(MaxIterationsReason,
           Some("Review has failed " + Text.IntToString(r.reviewIteration) + " times. How should we proceed?"),
           Some(MaxIterationsOptions), w.now))
    ensures !w.feedback.FeedbackUnreadable? && r.reviewIteration < r.maxReviewIterations ==>
      (o.phase == MonitoringExecution <==> w.exec.ExecOk?) && (w.exec.ExecOk? ==> o.record.state == Executing)
  {
    match w.feedback
    case FeedbackUnreadable(e) => Outcome(Idle, UpdatedState(r, Failed, w.now, Some(e)))
    case NoFeedback => ReworkWithinBound(r, w)
    case FeedbackLoaded(dumped) => ReworkWithinBound(r.(reviewFeedback := Some(dumped)), w)
  }

  /** After the feedback is recorded: REVIEW_BLOCKED at the bound, another executor run below it. */
  function ReworkWithinBound(r: WorkflowRecord, w: World): Outcome {
    if r.reviewIteration >= r.maxReviewIterations then
      Outcome(Idle, WithBlock(UpdatedState(r, ReviewBlocked, w.now, None), MaxIterationsReason,
                              Some("Review has failed " + Text.IntToString(r.reviewIteration) + " times. How should we proceed?"),
                              Some(MaxIterationsOptions), w.now))
    else Rework(UpdatedState(r, NeedsRework, w.now, None), w)
  }

  /** The reviewer's container exited: a feedback file means rework, none means approval. */
  function ReviewOnExit(r: WorkflowRecord, w: World): (o: Outcome)
    ensures o.record.reviewIteration == r.reviewIteration
    ensures o.record.maxReviewIterations == r.maxReviewIterations
    ensures w.feedback.NoFeedback? ==> o == CreatePrAndComplete(r, w)
    ensures !w.feedback.NoFeedback? && r.reviewIteration >= r.maxReviewIterations ==>
      && o.phase == Idle && o.record.state == ReviewBlocked
      && o.record.blockInfo == Some(BlockInfo(MaxIterationsReason, Some("Continue anyway or cancel?"),
                                              Some(["Approve", "Cancel"]), w.now))
    ensures !w.feedback.NoFeedback? && r.reviewIteration < r.maxReviewIterations ==>
      (o.phase == MonitoringExecution <==> w.exec.ExecOk?) && (w.exec.ExecOk? ==> o.record.state == Executing)
  {
    if w.feedback.NoFeedback? then CreatePrAndComplete(r, w)
    else if r.reviewIteration >= r.maxReviewIterations then
      Outcome(Idle, WithBlock(UpdatedState(r, ReviewBlocked, w.now, None), MaxIterationsReason,
                              Some("Continue anyway or cancel?"), Some(["Approve", "Cancel"]), w.now))
    else Rework(UpdatedState(r, NeedsRework, w.now, None), w)
  }

  /** One event of `_monitor_review`. */
  function ReviewStep(r: WorkflowRecord, ev: WaitEvent, w: World): (o: Outcome)
    ensures o.record.reviewIteration == r.reviewIteration
    ensures o.record.maxReviewIterations == r.maxReviewIterations
    ensures ev.Running? ==> o == Outcome(MonitoringReview, r)
    ensures o.phase != MonitoringPlanning
  {
    match ev
    case Running => Outcome(MonitoringReview, r)
    case BlockedEvent(s) =>
      Outcome(MonitoringReview,
              WithBlock(UpdatedState(r, ReviewBlocked, w.now, None),
                        Text.OrElse(s.message, "Reviewer needs input"), s.question, s.options, w.now))
    case CompleteEvent(s) =>
      if IsReworkVerdict(s.message) then ReworkOnComplete(r, w) else CreatePrAndComplete(r, w)
    case ErrorEvent(s) => Outcome(Idle, UpdatedState(r, Failed, w.now, s.message))
    case Exited => ReviewOnExit(r, w)
  }

  /** One event handled by whichever monitor is running; with none, events change nothing. The
      iteration count changes only when a reviewer run starts, and then by exactly one. */
  function Step(phase: Phase, r: WorkflowRecord, ev: WaitEvent, w: World, reviewEnabled: bool): (o: Outcome)
    ensures phase == Idle ==> o == Outcome(Idle, r)
    ensures o.record.reviewIteration
         == r.reviewIteration + (if phase == MonitoringExecution && ev.CompleteEvent? && reviewEnabled then 1 else 0)
    ensures o.record.maxReviewIterations == r.maxReviewIterations
  {
    match phase
    case Idle => Outcome(Idle, r)
    case MonitoringPlanning => PlanningStep(r, ev, w)
    case MonitoringExecution => ExecutionStep(r, ev, w, reviewEnabled)
    case MonitoringReview => ReviewStep(r, ev, w)
  }

  /** A finite run: the events in order, each with the world's answers during its step. The
      count of reviewer runs never goes down and grows by at most one per event. */
  function Run(phase: Phase, r: WorkflowRecord, events: seq<(WaitEvent, World)>, reviewEnabled: bool): (o: Outcome)
    ensures r.reviewIteration <= o.record.reviewIteration <= r.reviewIteration + |events|
    ensures o.record.maxReviewIterations == r.maxReviewIterations
    decreases |events|
  {
    if events == [] then Outcome(phase, r)
    else
      var o := Step(phase, r, events[0].0, events[0].1, reviewEnabled);
      Run(o.phase, o.record, events[1..], reviewEnabled)
  }

  /** `start_workflow`: the container is started (its id, or the exception text), named
      "workflow-<id>", the state becomes PLANNING and the planner is started in it. */
  function StartWorkflow(r: WorkflowRecord, container: Result<string>, w: World): (o: Outcome)
    ensures container.Err? ==> o == Outcome(Idle, UpdatedState(r, Failed, w.now, Some(container.error)))
    ensures container.Ok? ==> o.record.containerId == Some(container.value)
    ensures container.Ok? ==> o.record.containerName == Some("workflow-" + r.id)
    ensures o.record.reviewIteration == r.reviewIteration
    ensures o.phase == MonitoringPlanning <==> container.Ok? && w.exec.ExecOk?
    ensures o.phase == MonitoringPlanning ==> o.record.state == Planning
  {
    match container
    case Err(e) => Outcome(Idle, UpdatedState(r, Failed, w.now, Some(e)))
    case Ok(id) =>
      var planning := UpdatedState(r.(containerId := Some(id), containerName := Some("workflow-" + r.id)), Planning, w.now, None);
      match w.exec
      case ExecOk => Outcome(MonitoringPlanning, planning)
      case ExecFailed(e) => Outcome(Idle, UpdatedState(planning, Failed, w.now, Some(e)))
  }

  // ---------------------------------------------------------------------------
  // Properties of the monitors

  /** Planning outcomes: "blocked" waits in PLANNING_BLOCKED with the message or "Planner needs
      input" as reason; "complete" records the agent's output file as the plan and starts the
      executor; "error" fails with the agent's message; "exited" goes on with "plan.md" exactly
      when that file exists and fails with the log tail otherwise. */
  lemma PlanningOutcomes(r: WorkflowRecord, ev: WaitEvent, w: World)
    ensures var o := PlanningStep(r, ev, w);
      && (ev.Running? ==> o == Outcome(MonitoringPlanning, r))
      && (ev.BlockedEvent? ==>
            && o.phase == MonitoringPlanning && o.record.state == PlanningBlocked
            && o.record.blockInfo == Some(BlockInfo(Text.OrElse(ev.status.message, "Planner needs input"),
                                                    ev.status.question, ev.status.options, w.now)))
      && (ev.CompleteEvent? ==>
            && o.record.planFilePath == ev.status.outputFile
            && (o.phase == MonitoringExecution <==> w.exec.ExecOk?))
      && (ev.ErrorEvent? ==>
            && o.phase == Idle && o.record.state == Failed
            && o.record == UpdatedState(r, Failed, w.now, ev.status.message))
      && (ev.Exited? && w.planExists ==>
            && o.record.planFilePath == Some("plan.md")
            && (o.phase == MonitoringExecution <==> w.exec.ExecOk?))
      && (ev.Exited? && !w.planExists ==>
            && o.phase == Idle && o.record.state == Failed
            && o.record.errorMessage == Some("Planner failed. Logs:\n" + w.tailLogs))
  {
  }

  /** Without review, "complete" always ends COMPLETED, with the URL from the message or the logs
      recorded when there is one; "exited" ends COMPLETED exactly when the logs hold a URL. */
  lemma ExecutionWithoutReview(r: WorkflowRecord, ev: WaitEvent, w: World)
    ensures var o := ExecutionStep(r, ev, w, false);
      && (ev.CompleteEvent? ==>
            && o.phase == Idle && o.record.state == Completed
            && o.record.prUrl == (if PrUrl.Extract(ev.status.message, w.logs).Some?
                                  then PrUrl.Extract(ev.status.message, w.logs) else r.prUrl))
      && (ev.Exited? ==>
            && o.phase == Idle && (o.record.state == Completed <==> PrUrl.FromLogs(w.logs).Some?)
            && (o.record.state == Completed || o.record.state == Failed))
      && (ev.Exited? && PrUrl.FromLogs(w.logs).Some? ==> o.record.prUrl == PrUrl.FromLogs(w.logs))
  {
  }

  /** A "complete" verdict is rework exactly when the message contains "needs_rework" in any
      letter case; an absent or empty message is an approval. */
  lemma ReworkVerdict(pre: string, word: string, post: string)
    requires Text.Lower(word) == "needs_rework"
    ensures IsReworkVerdict(Some(pre + word + post))
    ensures !IsReworkVerdict(None) && !IsReworkVerdict(Some(""))
  {
    var m := pre + word + post;
    assert Text.Lower(m)[|pre|..|pre| + |word|] == Text.Lower(word);
    Text.ContainsAt(Text.Lower(m), "needs_rework", |pre|);
  }

  /** An approval (no rework verdict on "complete", or no feedback file on exit) goes to PR
      creation and ends the run: COMPLETED when the agent starts, FAILED when it does not. */
  lemma ApprovalCreatesPr(r: WorkflowRecord, ev: WaitEvent, w: World)
    requires (ev.CompleteEvent? && !IsReworkVerdict(ev.status.message)) || (ev.Exited? && w.feedback.NoFeedback?)
    ensures ReviewStep(r, ev, w) == CreatePrAndComplete(r, w)
    ensures ReviewStep(r, ev, w).phase == Idle
    ensures ReviewStep(r, ev, w).record.state == (if w.exec.ExecOk? then Completed else Failed)
  {
  }

  /** A rework verdict at the bound goes to REVIEW_BLOCKED and ends the run without starting the
      executor again; below the bound it goes through NEEDS_REWORK back to executing. */
  lemma ReworkAtAndBelowBound(r: WorkflowRecord, ev: WaitEvent, w: World)
    requires (ev.CompleteEvent? && IsReworkVerdict(ev.status.message) && !w.feedback.FeedbackUnreadable?)
          || (ev.Exited? && !w.feedback.NoFeedback?)
    ensures var o := ReviewStep(r, ev, w);
      && (r.reviewIteration >= r.maxReviewIterations ==>
            o.phase == Idle && o.record.state == ReviewBlocked && o.record.blockInfo.Some?
            && o.record.blockInfo.value.reason == MaxIterationsReason)
      && (r.reviewIteration < r.maxReviewIterations ==>
            (o.phase == MonitoringExecution <==> w.exec.ExecOk?)
            && (w.exec.ExecOk? ==> o.record.state == Executing))
  {
  }

  /** The bound the iteration count stays within: the configured maximum, or 1 when the maximum
      is below 1 (the first reviewer run is always allowed). */
  function Bound(r: WorkflowRecord): (b: int)
    ensures b >= 1 && b >= r.maxReviewIterations
    ensures r.maxReviewIterations >= 1 ==> b == r.maxReviewIterations
  {
    if r.maxReviewIterations >= 1 then r.maxReviewIterations else 1
  }

  /** The rework invariant: the count is within the bound, and strictly below it whenever a
      later event could start another reviewer run. */
  predicate BoundInv(phase: Phase, r: WorkflowRecord) {
    && 0 <= r.reviewIteration <= Bound(r)
    && ((phase == MonitoringPlanning || phase == MonitoringExecution) ==> r.reviewIteration < Bound(r))
  }

  lemma StepPreservesBound(phase: Phase, r: WorkflowRecord, ev: WaitEvent, w: World, reviewEnabled: bool)
    requires BoundInv(phase, r)
    ensures BoundInv(Step(phase, r, ev, w, reviewEnabled).phase, Step(phase, r, ev, w, reviewEnabled).record)
  {
    var o := Step(phase, r, ev, w, reviewEnabled);
    assert Bound(o.record) == Bound(r);
    if phase == MonitoringReview && o.phase == MonitoringExecution {
      assert r.reviewIteration < r.maxReviewIterations by {
        match ev
        case CompleteEvent(s) =>
        case Exited =>
        case _ =>
      }
    }
  }

  /** However the agents answer, the reviewer never runs more often than the bound allows: with
      a maximum of at least 1, `review_iteration` never exceeds `max_review_iterations`. */
  lemma {:induction false} RunPreservesBound(phase: Phase, r: WorkflowRecord, events: seq<(WaitEvent, World)>, reviewEnabled: bool)
    requires BoundInv(phase, r)
    ensures BoundInv(Run(phase, r, events, reviewEnabled).phase, Run(phase, r, events, reviewEnabled).record)
    ensures Run(phase, r, events, reviewEnabled).record.maxReviewIterations == r.maxReviewIterations
    decreases |events|
  {
    if events != [] {
      var o := Step(phase, r, events[0].0, events[0].1, reviewEnabled);
      StepPreservesBound(phase, r, events[0].0, events[0].1, reviewEnabled);
      RunPreservesBound(o.phase, o.record, events[1..], reviewEnabled);
    }
  }

  /** A freshly started workflow (no reviewer run yet) satisfies the invariant. */
  lemma StartEstablishesBound(r: WorkflowRecord, container: Result<string>, w: World)
    requires r.reviewIteration == 0
    ensures BoundInv(StartWorkflow(r, container, w).phase, StartWorkflow(r, container, w).record)
  {
  }

  /** Once every monitor has returned, further events change nothing. */
  lemma {:induction false} IdleIsFinal(r: WorkflowRecord, events: seq<(WaitEvent, World)>, reviewEnabled: bool)
    ensures Run(Idle, r, events, reviewEnabled) == Outcome(Idle, r)
    decreases |events|
  {
    if events != [] {
      IdleIsFinal(r, events[1..], reviewEnabled);
    }
  }

  lemma PlanningTerminalIsIdle(r: WorkflowRecord, ev: WaitEvent, w: World)
    requires !IsTerminalState(r.state) && IsTerminalState(PlanningStep(r, ev, w).record.state)
    ensures PlanningStep(r, ev, w).phase == Idle
  {
  }

  lemma ExecutionTerminalIsIdle(r: WorkflowRecord, ev: WaitEvent, w: World, reviewEnabled: bool)
    requires !IsTerminalState(r.state) && IsTerminalState(ExecutionStep(r, ev, w, reviewEnabled).record.state)
    ensures ExecutionStep(r, ev, w, reviewEnabled).phase == Idle
  {
  }

  lemma ReviewTerminalIsIdle(r: WorkflowRecord, ev: WaitEvent, w: World)
    requires !IsTerminalState(r.state) && IsTerminalState(ReviewStep(r, ev, w).record.state)
    ensures ReviewStep(r, ev, w).phase == Idle
  {
    match ev
    case CompleteEvent(s) =>
    case Exited =>
    case _ =>
  }

  /** A step that ends in a terminal state also ends every monitor. */
  lemma TerminalStopsMonitors(phase: Phase, r: WorkflowRecord, ev: WaitEvent, w: World, reviewEnabled: bool)
    requires phase != Idle && !IsTerminalState(r.state)
    requires IsTerminalState(Step(phase, r, ev, w, reviewEnabled).record.state)
    ensures Step(phase, r, ev, w, reviewEnabled).phase == Idle
  {
    match phase
    case MonitoringPlanning => PlanningTerminalIsIdle(r, ev, w);
    case MonitoringExecution => ExecutionTerminalIsIdle(r, ev, w, reviewEnabled);
    case MonitoringReview => ReviewTerminalIsIdle(r, ev, w);
  }

  /** Which states each monitor can see the workflow in: PLANNING or PLANNING_BLOCKED while
      planning is monitored, EXECUTING or EXECUTION_BLOCKED while execution is, REVIEWING or
      REVIEW_BLOCKED while the review is. */
  predicate PhaseConsistent(phase: Phase, r: WorkflowRecord) {
    && (phase == MonitoringPlanning ==> r.state == Planning || r.state == PlanningBlocked)
    && (phase == MonitoringExecution ==> r.state == Executing || r.state == ExecutionBlocked)
    && (phase == MonitoringReview ==> r.state == Reviewing || r.state == ReviewBlocked)
  }

  lemma ExecutionKeepsPhaseConsistent(r: WorkflowRecord, ev: WaitEvent, w: World, reviewEnabled: bool)
    requires PhaseConsistent(MonitoringExecution, r)
    ensures PhaseConsistent(ExecutionStep(r, ev, w, reviewEnabled).phase, ExecutionStep(r, ev, w, reviewEnabled).record)
  {
  }

  lemma ReviewKeepsPhaseConsistent(r: WorkflowRecord, ev: WaitEvent, w: World)
    requires PhaseConsistent(MonitoringReview, r)
    ensures PhaseConsistent(ReviewStep(r, ev, w).phase, ReviewStep(r, ev, w).record)
  {
    match ev
    case CompleteEvent(s) =>
    case Exited =>
    case _ =>
  }

  lemma StepKeepsPhaseConsistent(phase: Phase, r: WorkflowRecord, ev: WaitEvent, w: World, reviewEnabled: bool)
    requires PhaseConsistent(phase, r)
    ensures PhaseConsistent(Step(phase, r, ev, w, reviewEnabled).phase, Step(phase, r, ev, w, reviewEnabled).record)
  {
    match phase
    case Idle =>
    case MonitoringPlanning =>
    case MonitoringExecution => ExecutionKeepsPhaseConsistent(r, ev, w, reviewEnabled);
    case MonitoringReview => ReviewKeepsPhaseConsistent(r, ev, w);
  }

  /** From the start of a workflow on, the running monitor and the recorded state agree. */
  lemma {:induction false} RunKeepsPhaseConsistent(phase: Phase, r: WorkflowRecord, events: seq<(WaitEvent, World)>, reviewEnabled: bool)
    requires PhaseConsistent(phase, r)
    ensures PhaseConsistent(Run(phase, r, events, reviewEnabled).phase, Run(phase, r, events, reviewEnabled).record)
    decreases |events|
  {
    if events != [] {
      var o := Step(phase, r, events[0].0, events[0].1, reviewEnabled);
      StepKeepsPhaseConsistent(phase, r, events[0].0, events[0].1, reviewEnabled);
      RunKeepsPhaseConsistent(o.phase, o.record, events[1..], reviewEnabled);
    }
  }

  lemma StartIsPhaseConsistent(r: WorkflowRecord, container: Result<string>, w: World)
    ensures PhaseConsistent(StartWorkflow(r, container, w).phase, StartWorkflow(r, container, w).record)
  {
  }

  // ---------------------------------------------------------------------------
  // respond_to_workflow

  /** `respond_to_workflow` on the record: refused with no change unless the workflow is
      PLANNING_BLOCKED or EXECUTION_BLOCKED (REVIEW_BLOCKED included in the refusal);
      otherwise the answer is recorded, the block cleared and the blocked phase resumed. */
  function Responded(r: WorkflowRecord, response: string, now: string): (res: Result<WorkflowRecord>)
    ensures !IsBlockedState(r.state) <==> res.Err?
    ensures res.Err? ==> res.error == "Workflow " + r.id + " is not blocked"
    ensures res.Ok? ==>
      && res.value.humanResponse == Some(response) && res.value.blockInfo.None?
      && res.value.updatedAt == now
      && res.value.state == (if r.state == PlanningBlocked then Planning else Executing)
      && res.value.errorMessage == r.errorMessage
    ensures res.Ok? ==> res.value.(humanResponse := r.humanResponse, blockInfo := r.blockInfo,
                                   state := r.state, updatedAt := r.updatedAt) == r
  {
    if !IsBlockedState(r.state) then Err("Workflow " + r.id + " is not blocked")
    else
      var answered := WithResponse(r, response);
      Ok(UpdatedState(answered, if r.state == PlanningBlocked then Planning else Executing, now, None))
  }

  /** Responding leaves the workflow unblocked, and a second answer is refused. */
  lemma RespondOnce(r: WorkflowRecord, response: string, again: string, now: string)
    requires Responded(r, response, now).Ok?
    ensures !IsBlockedState(Responded(r, response, now).value.state)
    ensures Responded(Responded(r, response, now).value, again, now).Err?
  {
  }

  // ---------------------------------------------------------------------------
  // _get_executor_prompt

  const FeedbackHeader := "\n\n## REVIEW FEEDBACK - NEEDS REWORK\n\nThe code reviewer found issues that need to be fixed:\n\n"
  const FeedbackFooter := "\n\nPlease address all the issues mentioned above and update your implementation accordingly.\n"

  /** The executor prompt: the template, preceded by the review feedback note when a rework is
      requested and feedback is recorded. The template's text itself is an input. */
  function ExecutorPrompt(template: string, withFeedback: bool, feedback: Option<string>): (p: string)
    ensures Text.EndsWith(p, template)
    ensures withFeedback && Text.Truthy(feedback) ==>
      Text.StartsWith(p, FeedbackHeader) && p == FeedbackHeader + feedback.value + FeedbackFooter + template
    ensures !(withFeedback && Text.Truthy(feedback)) ==> p == template
  {
    if withFeedback && Text.Truthy(feedback) then
      var p := FeedbackHeader + feedback.value + FeedbackFooter + template;
      assert p[..|FeedbackHeader|] == FeedbackHeader;
      assert p[|p| - |template|..] == template;
      p
    else
      assert template[|template| - |template|..] == template;
      template
  }

  /** The feedback appears in the prompt exactly when a rework with recorded feedback asks for it. */
  lemma PromptCarriesFeedback(template: string, feedback: string)
    requires feedback != []
    ensures Text.Contains(ExecutorPrompt(template, true, Some(feedback)), feedback)
    ensures ExecutorPrompt(template, false, Some(feedback)) == template
    ensures ExecutorPrompt(template, true, None) == template
  {
    var p := ExecutorPrompt(template, true, Some(feedback));
    var at := |FeedbackHeader|;
    assert p[at..at + |feedback|] == feedback;
    Text.ContainsAt(p, feedback, at);
  }

  // ---------------------------------------------------------------------------
  // list_workflows

  /** `a` may be listed before `b`: it was updated no earlier (ISO timestamps compare as text). */
  predicate NewerOrSame(a: WorkflowRecord, b: WorkflowRecord) {
    Text.LexLe(b.updatedAt, a.updatedAt)
  }

  predicate SortedByRecency(ws: seq<WorkflowRecord>) {
    forall i, j :: 0 <= i < j < |ws| ==> NewerOrSame(ws[i], ws[j])
  }

  /** `x` placed before the first entry updated strictly earlier than it; entries with the same
      time stay in front of it, which keeps the sort stable. */
  function Insert(x: WorkflowRecord, ws: seq<WorkflowRecord>): (r: seq<WorkflowRecord>)
    ensures multiset(r) == multiset(ws) + multiset{x}
    ensures |r| == |ws| + 1
    decreases |ws|
  {
    if ws == [] then [x]
    else if !Text.LexLe(x.updatedAt, ws[0].updatedAt) then [x] + ws
    else
      var r := [ws[0]] + Insert(x, ws[1..]);
      assert ws == [ws[0]] + ws[1..];
      r
  }

  /** No entry of `ws` was updated after `h`. */
  predicate NoneNewer(h: WorkflowRecord, ws: seq<WorkflowRecord>) {
    forall j :: 0 <= j < |ws| ==> NewerOrSame(h, ws[j])
  }

  lemma {:induction false} InsertBounded(h: WorkflowRecord, x: WorkflowRecord, ws: seq<WorkflowRecord>)
    requires NoneNewer(h, ws) && NewerOrSame(h, x)
    ensures NoneNewer(h, Insert(x, ws))
    decreases |ws|
  {
    if ws != [] && Text.LexLe(x.updatedAt, ws[0].updatedAt) {
      InsertBounded(h, x, ws[1..]);
    }
  }

  lemma SortedCons(h: WorkflowRecord, t: seq<WorkflowRecord>)
    requires NoneNewer(h, t) && SortedByRecency(t)
    ensures SortedByRecency([h] + t)
  {
    var r := [h] + t;
    forall i, j | 0 <= i < j < |r| ensures NewerOrSame(r[i], r[j]) {
      assert r[j] == t[j - 1];
      if i > 0 { assert r[i] == t[i - 1]; }
    }
  }

  lemma {:induction false} InsertSorted(x: WorkflowRecord, ws: seq<WorkflowRecord>)
    requires SortedByRecency(ws)
    ensures SortedByRecency(Insert(x, ws))
    decreases |ws|
  {
    if ws != [] {
      if !Text.LexLe(x.updatedAt, ws[0].updatedAt) {
        Text.LexLeTotal(x.updatedAt, ws[0].updatedAt);
        forall j | 0 <= j < |ws| ensures NewerOrSame(x, ws[j]) {
          if j > 0 {
            Text.LexLeTransitive(ws[j].updatedAt, ws[0].updatedAt, x.updatedAt);
          }
        }
        SortedCons(x, ws);
      } else {
        InsertSorted(x, ws[1..]);
        InsertBounded(ws[0], x, ws[1..]);
        SortedCons(ws[0], Insert(x, ws[1..]));
      }
    }
  }

  /** `workflows.sort(key=updated_at, reverse=True)`, by insertion in list order. */
  function SortByRecency(ws: seq<WorkflowRecord>): (r: seq<WorkflowRecord>)
    ensures multiset(r) == multiset(ws)
    decreases |ws|
  {
    if ws == [] then []
    else
      assert ws == ws[..|ws| - 1] + [ws[|ws| - 1]];
      Insert(ws[|ws| - 1], SortByRecency(ws[..|ws| - 1]))
  }

  /** The sort returns the same workflows, most recently updated first. */
  lemma {:induction false} SortByRecencySorted(ws: seq<WorkflowRecord>)
    ensures SortedByRecency(SortByRecency(ws))
    ensures multiset(SortByRecency(ws)) == multiset(ws)
    decreases |ws|
  {
    if ws != [] {
      SortByRecencySorted(ws[..|ws| - 1]);
      InsertSorted(ws[|ws| - 1], SortByRecency(ws[..|ws| - 1]));
    }
  }

  predicate Matches(r: WorkflowRecord, filter: Option<WorkflowState>) {
    filter.None? || r.state == filter.value
  }

  /** The loaded workflows that pass the filter, in directory order; entries that are not a
      workflow directory or have no metadata are None. */
  function Selected(entries: seq<Option<WorkflowRecord>>, filter: Option<WorkflowState>): (ws: seq<WorkflowRecord>)
    ensures forall x :: x in ws <==> Some(x) in entries && Matches(x, filter)
    decreases |entries|
  {
    if entries == [] then []
    else
      var last := entries[|entries| - 1];
      var front := Selected(entries[..|entries| - 1], filter);
      assert entries == entries[..|entries| - 1] + [last];
      if last.Some? && Matches(last.value, filter) then front + [last.value] else front
  }

  /** The selection is a filter: it distributes over concatenation of the directory listing,
      and keeps one entry exactly when it is a workflow that passes. */
  lemma {:induction false} SelectedFilters(a: seq<Option<WorkflowRecord>>, b: seq<Option<WorkflowRecord>>,
                                           e: Option<WorkflowRecord>, filter: Option<WorkflowState>)
    ensures Selected(a + b, filter) == Selected(a, filter) + Selected(b, filter)
    ensures Selected([e], filter) == if e.Some? && Matches(e.value, filter) then [e.value] else []
    decreases |b|
  {
    assert [e][..0] == [];
    if b == [] {
      assert a + b == a;
    } else {
      var b' := b[..|b| - 1];
      var last := b[|b| - 1];
      assert (a + b)[..|a + b| - 1] == a + b';
      assert (a + b)[|a + b| - 1] == last;
      SelectedFilters(a, b', e, filter);
      assert Selected(a + b, filter) == Selected(a + b', filter) + (if last.Some? && Matches(last.value, filter) then [last.value] else []);
      assert Selected(b, filter) == Selected(b', filter) + (if last.Some? && Matches(last.value, filter) then [last.value] else []);
    }
  }

  /** `list_workflows`: the loaded workflows in the requested state (all of them without a
      filter), most recently updated first. */
  /** Each workflow that passes is selected as many times as the listing holds it, and no
      other is selected. */
  lemma {:induction false} SelectedCounts(entries: seq<Option<WorkflowRecord>>, filter: Option<WorkflowState>)
    ensures forall x :: multiset(Selected(entries, filter))[x] == if Matches(x, filter) then multiset(entries)[Some(x)] else 0
    decreases |entries|
  {
    if entries != [] {
      var front := entries[..|entries| - 1];
      var last := entries[|entries| - 1];
      assert entries == front + [last];
      SelectedCounts(front, filter);
      SelectedFilters(front, [last], last, filter);
    }
  }

  method ListWorkflows(entries: seq<Option<WorkflowRecord>>, filter: Option<WorkflowState>) returns (ws: seq<WorkflowRecord>)
    ensures ws == SortByRecency(Selected(entries, filter))
    ensures SortedByRecency(ws)
    ensures multiset(ws) == multiset(Selected(entries, filter))
    ensures forall x :: x in ws <==> Some(x) in entries && Matches(x, filter)
    ensures forall x :: multiset(ws)[x] == if Matches(x, filter) then multiset(entries)[Some(x)] else 0
  {
    var workflows: seq<WorkflowRecord> := [];
    var i := 0;
    while i < |entries|
      invariant 0 <= i <= |entries|
      invariant workflows == Selected(entries[..i], filter)
    {
      var entry := entries[i];
      assert entries[..i + 1] == entries[..i] + [entry];
      SelectedFilters(entries[..i], [entry], entry, filter);
      if entry.Some? && Matches(entry.value, filter) {
        workflows := workflows + [entry.value];
      }
      i := i + 1;
    }
    assert entries[..i] == entries;
    ws := SortByRecency(workflows);
    SortByRecencySorted(workflows);
    SameMembers(ws, workflows);
    SelectedCounts(entries, filter);
  }

  lemma SameMembers(a: seq<WorkflowRecord>, b: seq<WorkflowRecord>)
    requires multiset(a) == multiset(b)
    ensures forall x :: x in a <==> x in b
  {
    forall x ensures x in a <==> x in b {
      assert x in a <==> x in multiset(a);
      assert x in b <==> x in multiset(b);
    }
  }

  // ---------------------------------------------------------------------------
  // _create_screenshots_manifest

  const ManifestHeader := ["# Screenshots & Attachments", "",
    "This ticket includes visual references. **IMPORTANT: Use the Read tool to view each image below.**", ""]

  const ManifestFooter := ["", "---", "**Agent Instructions:**",
    "1. Use the Read tool to view each image file listed above",
    "2. Pay careful attention to UI layouts, colors, spacing, and interactions",
    "3. Ensure your implementation matches the visual requirements shown"]

  /** `Path(file_path).name`. */
  function FileName(path: string): string {
    Text.AfterLast(path, '/')
  }

  /** The five lines the manifest holds for one image. */
  function ImageSection(name: string): (lines: seq<string>)
    ensures |lines| == 5 && lines[0] == "## " + name
  {
    var rel := "./attachments/" + name;
    ["## " + name, "**File:** `" + rel + "`", "**To view:** Use Read tool on `" + rel + "`",
     "![" + name + "](" + rel + ")", ""]
  }

  /** The sections for the image files among `files`, in order; other files contribute nothing. */
  function ImageSections(files: seq<string>): (lines: seq<string>)
    decreases |files|
  {
    if files == [] then []
    else
      var name := FileName(files[|files| - 1]);
      ImageSections(files[..|files| - 1]) + (if Text.IsImageName(name) then ImageSection(name) else [])
  }

  lemma ImageSectionsStep(files: seq<string>, i: nat)
    requires i < |files|
    ensures ImageSections(files[..i + 1]) == ImageSections(files[..i])
      + (if Text.IsImageName(FileName(files[i])) then ImageSection(FileName(files[i])) else [])
  {
    assert files[..i + 1][..i] == files[..i];
  }

  /** `_create_screenshots_manifest`: the text written to SCREENSHOTS.md. */
  method ScreenshotsManifest(files: seq<string>) returns (text: string)
    ensures text == Text.Join(ManifestHeader + ImageSections(files) + ManifestFooter, "\n")
  {
    var sections: seq<string> := [];
    var i := 0;
    while i < |files|
      invariant 0 <= i <= |files|
      invariant sections == ImageSections(files[..i])
    {
      ImageSectionsStep(files, i);
      var name := FileName(files[i]);
      if Text.IsImageName(name) {
        sections := sections + ImageSection(name);
      }
      i := i + 1;
    }
    assert files[..i] == files;
    var lines := ManifestHeader + sections + ManifestFooter;
    text := Text.Join(lines, "\n");
  }

  /** Every image file has its heading in the manifest. */
  lemma {:induction false} ManifestListsImages(files: seq<string>)
    ensures forall i :: 0 <= i < |files| && Text.IsImageName(FileName(files[i])) ==> "## " + FileName(files[i]) in ImageSections(files)
    decreases |files|
  {
    if files != [] {
      var front := files[..|files| - 1];
      var name := FileName(files[|files| - 1]);
      ManifestListsImages(front);
      var all := ImageSections(files);
      assert all == ImageSections(front) + (if Text.IsImageName(name) then ImageSection(name) else []);
      forall i | 0 <= i < |files| && Text.IsImageName(FileName(files[i])) ensures "## " + FileName(files[i]) in all {
        if i < |files| - 1 {
          assert files[i] == front[i];
        } else {
          assert all[|ImageSections(front)|] == ImageSection(name)[0];
        }
      }
    }
  }

  /** Only the lines of one image section, its first, start with "## ". */
  lemma HeadingOnlyFirst(name: string, m: nat)
    requires 0 < m < 5
    ensures !Text.StartsWith(ImageSection(name)[m], "## ")
  {
    var line := ImageSection(name)[m];
    assert line == [] || line[0] != '#';
  }

  lemma SectionHeading(name: string, m: nat)
    requires m < 5 && Text.StartsWith(ImageSection(name)[m], "## ")
    ensures ImageSection(name)[m] == "## " + name
  {
    if m > 0 {
      HeadingOnlyFirst(name, m);
    }
  }

  /** `line` is the heading of an image file among `files`. */
  predicate IsImageHeading(files: seq<string>, line: string) {
    exists i :: 0 <= i < |files| && Text.IsImageName(FileName(files[i])) && line == "## " + FileName(files[i])
  }

  lemma ImageHeadingPrefix(files: seq<string>, n: nat, line: string)
    requires n <= |files| && IsImageHeading(files[..n], line)
    ensures IsImageHeading(files, line)
  {
    var i :| 0 <= i < n && Text.IsImageName(FileName(files[..n][i])) && line == "## " + FileName(files[..n][i]);
    assert files[..n][i] == files[i];
    assert 0 <= i < |files| && Text.IsImageName(FileName(files[i])) && line == "## " + FileName(files[i]);
  }

  /** Every line of `lines` that starts with "## " is the heading of an image file among `files`. */
  predicate HeadingsNamed(files: seq<string>, lines: seq<string>) {
    forall k :: 0 <= k < |lines| && Text.StartsWith(lines[k], "## ") ==> IsImageHeading(files, lines[k])
  }

  lemma HeadingsNamedAppend(files: seq<string>, a: seq<string>, b: seq<string>)
    requires HeadingsNamed(files, a) && HeadingsNamed(files, b)
    ensures HeadingsNamed(files, a + b)
  {
    forall k | 0 <= k < |a + b| && Text.StartsWith((a + b)[k], "## ") ensures IsImageHeading(files, (a + b)[k]) {
      if k < |a| { assert (a + b)[k] == a[k]; } else { assert (a + b)[k] == b[k - |a|]; }
    }
  }

  lemma HeadingsNamedPrefix(files: seq<string>, n: nat, lines: seq<string>)
    requires n <= |files| && HeadingsNamed(files[..n], lines)
    ensures HeadingsNamed(files, lines)
  {
    forall k | 0 <= k < |lines| && Text.StartsWith(lines[k], "## ") ensures IsImageHeading(files, lines[k]) {
      ImageHeadingPrefix(files, n, lines[k]);
    }
  }

  lemma LastSectionNamed(files: seq<string>)
    requires files != []
    ensures var name := FileName(files[|files| - 1]);
      HeadingsNamed(files, if Text.IsImageName(name) then ImageSection(name) else [])
  {
    var last := |files| - 1;
    var name := FileName(files[last]);
    if Text.IsImageName(name) {
      var lines := ImageSection(name);
      forall m | 0 <= m < |lines| && Text.StartsWith(lines[m], "## ") ensures IsImageHeading(files, lines[m]) {
        SectionHeading(name, m);
        assert Text.IsImageName(FileName(files[last])) && lines[m] == "## " + FileName(files[last]);
      }
    }
  }

  /** Every heading in the manifest names an image file. */
  lemma {:induction false} ManifestOnlyImages(files: seq<string>)
    ensures HeadingsNamed(files, ImageSections(files))
    decreases |files|
  {
    if files != [] {
      var last := |files| - 1;
      var name := FileName(files[last]);
      ManifestOnlyImages(files[..last]);
      HeadingsNamedPrefix(files, last, ImageSections(files[..last]));
      LastSectionNamed(files);
      HeadingsNamedAppend(files, ImageSections(files[..last]), if Text.IsImageName(name) then ImageSection(name) else []);
    }
  }

  // ---------------------------------------------------------------------------
  // The manager, acting on a Workflow object in place

  /** The workflow manager: the review switch from the configuration and which monitor loop is
      running. Each method changes the workflow object as the source's method of the same role
      does, and is proved to reach the outcome the functions above describe. */
  class Manager {
    const reviewEnabled: bool
    var phase: Phase

    constructor (reviewEnabled: bool)
      ensures this.reviewEnabled == reviewEnabled && phase == Idle
    {
      this.reviewEnabled := reviewEnabled;
      phase := Idle;
    }

    /** `workflow.update_state(FAILED, message)`; every monitor returns. */
    method Fail(wf: Workflow, now: string, message: Option<string>)
      modifies this, wf
      ensures phase == Idle && wf.Snapshot() == UpdatedState(old(wf.Snapshot()), Failed, now, message)
    {
      wf.UpdateState(Failed, now, message);
      phase := Idle;
    }

    /** `update_state(state)` followed by `set_blocked(...)`; the monitor keeps waiting. */
    method Block(wf: Workflow, state: WorkflowState, reason: string, question: Option<string>,
                 options: Option<seq<string>>, now: string)
      modifies wf
      ensures wf.Snapshot() == WithBlock(UpdatedState(old(wf.Snapshot()), state, now, None), reason, question, options, now)
    {
      wf.UpdateState(state, now, None);
      wf.SetBlocked(reason, question, options, now);
    }

    /** COMPLETED, and `pr_url` set when a URL was found. */
    method CompleteWith(wf: Workflow, url: Option<string>, now: string)
      modifies this, wf
      ensures phase == Idle && wf.Snapshot() == Complete(old(wf.Snapshot()), url, now)
    {
      wf.UpdateState(Completed, now, None);
      if url.Some? {
        ghost var before := wf.Snapshot();
        wf.prUrl := url;
        assert wf.Snapshot() == before.(prUrl := url);
      }
      phase := Idle;
    }

    /** `_run_planning_phase`: the planner is started in the workflow's container. */
    method RunPlanningPhase(wf: Workflow, w: World)
      modifies this, wf
      ensures w.exec.ExecOk? ==> phase == MonitoringPlanning && wf.Snapshot() == old(wf.Snapshot())
      ensures w.exec.ExecFailed? ==> phase == Idle && wf.Snapshot() == UpdatedState(old(wf.Snapshot()), Failed, w.now, Some(w.exec.reason))
    {
      match w.exec
      case ExecOk => phase := MonitoringPlanning;
      case ExecFailed(e) => Fail(wf, w.now, Some(e));
    }

    /** `start_workflow`. */
    method StartWorkflowOn(wf: Workflow, container: Result<string>, w: World)
      modifies this, wf
      ensures Outcome(phase, wf.Snapshot()) == StartWorkflow(old(wf.Snapshot()), container, w)
    {
      match container
      case Err(e) => Fail(wf, w.now, Some(e));
      case Ok(id) =>
        ghost var before := wf.Snapshot();
        wf.containerId := Some(id);
        wf.containerName := Some("workflow-" + wf.id);
        assert wf.Snapshot() == before.(containerId := Some(id), containerName := Some("workflow-" + before.id));
        wf.UpdateState(Planning, w.now, None);
        RunPlanningPhase(wf, w);
    }

    /** `_run_execution_phase`. */
    method RunExecutionPhase(wf: Workflow, w: World)
      modifies this, wf
      ensures Outcome(phase, wf.Snapshot()) == StartExecution(old(wf.Snapshot()), w)
    {
      wf.UpdateState(Executing, w.now, None);
      match w.exec
      case ExecOk => phase := MonitoringExecution;
      case ExecFailed(e) => Fail(wf, w.now, Some(e));
    }

    /** `_run_review_phase`. */
    method RunReviewPhase(wf: Workflow, w: World)
      modifies this, wf
      ensures Outcome(phase, wf.Snapshot()) == StartReview(old(wf.Snapshot()), w)
    {
      wf.UpdateState(Reviewing, w.now, None);
      ghost var before := wf.Snapshot();
      wf.reviewIteration := wf.reviewIteration + 1;
      assert wf.Snapshot() == before.(reviewIteration := before.reviewIteration + 1);
      match w.exec
      case ExecOk => phase := MonitoringReview;
      case ExecFailed(e) => Fail(wf, w.now, Some(e));
    }

    /** `_run_execution_with_feedback`. */
    method RunExecutionWithFeedback(wf: Workflow, w: World)
      modifies this, wf
      ensures Outcome(phase, wf.Snapshot()) == Rework(old(wf.Snapshot()), w)
    {
      match w.exec
      case ExecOk =>
        wf.UpdateState(Executing, w.now, None);
        phase := MonitoringExecution;
      case ExecFailed(e) => Fail(wf, w.now, Some(e));
    }

    /** `_create_pr_and_complete`, as intended. */
    method CreatePrAndCompleteOn(wf: Workflow, w: World)
      modifies this, wf
      ensures Outcome(phase, wf.Snapshot()) == CreatePrAndComplete(old(wf.Snapshot()), w)
    {
      match w.exec
      case ExecOk => CompleteWith(wf, PrUrl.FromLogs(w.logs), w.now);
      case ExecFailed(e) => Fail(wf, w.now, Some(e));
    }

    /** One event of `_monitor_planning`. */
    method MonitorPlanning(wf: Workflow, ev: WaitEvent, w: World)
      modifies this, wf
      ensures Outcome(phase, wf.Snapshot()) == PlanningStep(old(wf.Snapshot()), ev, w)
    {
      match ev
      case Running => phase := MonitoringPlanning;
      case BlockedEvent(s) =>
        Block(wf, PlanningBlocked, Text.OrElse(s.message, "Planner needs input"), s.question, s.options, w.now);
        phase := MonitoringPlanning;
      case CompleteEvent(s) =>
        wf.UpdateState(Planned, w.now, None);
        ghost var before := wf.Snapshot();
        wf.planFilePath := s.outputFile;
        assert wf.Snapshot() == before.(planFilePath := s.outputFile);
        RunExecutionPhase(wf, w);
      case ErrorEvent(s) => Fail(wf, w.now, s.message);
      case Exited =>
        if w.planExists {
          wf.UpdateState(Planned, w.now, None);
          ghost var before := wf.Snapshot();
          wf.planFilePath := Some("plan.md");
          assert wf.Snapshot() == before.(planFilePath := Some("plan.md"));
          RunExecutionPhase(wf, w);
        } else {
          Fail(wf, w.now, Some("Planner failed. Logs:\n" + w.tailLogs));
        }
    }

    /** One event of `_monitor_execution`. */
    method MonitorExecution(wf: Workflow, ev: WaitEvent, w: World)
      modifies this, wf
      ensures Outcome(phase, wf.Snapshot()) == ExecutionStep(old(wf.Snapshot()), ev, w, reviewEnabled)
    {
      match ev
      case Running => phase := MonitoringExecution;
      case BlockedEvent(s) =>
        Block(wf, ExecutionBlocked, Text.OrElse(s.message, "Executor needs input"), s.question, s.options, w.now);
        phase := MonitoringExecution;
      case CompleteEvent(s) =>
        if reviewEnabled {
          RunReviewPhase(wf, w);
        } else {
          CompleteWith(wf, PrUrl.Extract(s.message, w.logs), w.now);
        }
      case ErrorEvent(s) => Fail(wf, w.now, s.message);
      case Exited =>
        var url := PrUrl.FromLogs(w.logs);
        if url.Some? {
          CompleteWith(wf, url, w.now);
        } else {
          Fail(wf, w.now, Some("Executor failed. Logs:\n" + Text.TakeLast(w.logs, 1000)));
        }
    }

    /** The rework branch of a "complete" verdict in `_monitor_review`. */
    method ReworkOnCompleteOn(wf: Workflow, w: World)
      modifies this, wf
      ensures Outcome(phase, wf.Snapshot()) == ReworkOnComplete(old(wf.Snapshot()), w)
    {
      if w.feedback.FeedbackUnreadable? {
        Fail(wf, w.now, Some(w.feedback.error));
        return;
      }
      if w.feedback.FeedbackLoaded? {
        ghost var before := wf.Snapshot();
        wf.reviewFeedback := Some(w.feedback.dumped);
        assert wf.Snapshot() == before.(reviewFeedback := Some(w.feedback.dumped));
      }
      if wf.reviewIteration >= wf.maxReviewIterations {
        Block(wf, ReviewBlocked, MaxIterationsReason,
              Some("Review has failed " + Text.IntToString(wf.reviewIteration) + " times. How should we proceed?"),
              Some(MaxIterationsOptions), w.now);
        phase := Idle;
      } else {
        wf.UpdateState(NeedsRework, w.now, None);
        RunExecutionWithFeedback(wf, w);
      }
    }

    /** The "exited" branch of `_monitor_review`. */
    method ReviewOnExitOn(wf: Workflow, w: World)
      modifies this, wf
      ensures Outcome(phase, wf.Snapshot()) == ReviewOnExit(old(wf.Snapshot()), w)
    {
      if w.feedback.NoFeedback? {
        CreatePrAndCompleteOn(wf, w);
      } else if wf.reviewIteration >= wf.maxReviewIterations {
        Block(wf, ReviewBlocked, MaxIterationsReason, Some("Continue anyway or cancel?"), Some(["Approve", "Cancel"]), w.now);
        phase := Idle;
      } else {
        wf.UpdateState(NeedsRework, w.now, None);
        RunExecutionWithFeedback(wf, w);
      }
    }

    /** One event of `_monitor_review`. */
    method MonitorReview(wf: Workflow, ev: WaitEvent, w: World)
      modifies this, wf
      ensures Outcome(phase, wf.Snapshot()) == ReviewStep(old(wf.Snapshot()), ev, w)
    {
      match ev
      case Running => phase := MonitoringReview;
      case BlockedEvent(s) =>
        Block(wf, ReviewBlocked, Text.OrElse(s.message, "Reviewer needs input"), s.question, s.options, w.now);
        phase := MonitoringReview;
      case CompleteEvent(s) =>
        if IsReworkVerdict(s.message) {
          ReworkOnCompleteOn(wf, w);
        } else {
          CreatePrAndCompleteOn(wf, w);
        }
      case ErrorEvent(s) => Fail(wf, w.now, s.message);
      case Exited => ReviewOnExitOn(wf, w);
    }

    /** One event, handled by the monitor that is running. */
    method HandleEvent(wf: Workflow, ev: WaitEvent, w: World)
      modifies this, wf
      ensures Outcome(phase, wf.Snapshot()) == Step(old(phase), old(wf.Snapshot()), ev, w, reviewEnabled)
    {
      match phase
      case Idle =>
      case MonitoringPlanning => MonitorPlanning(wf, ev, w);
      case MonitoringExecution => MonitorExecution(wf, ev, w);
      case MonitoringReview => MonitorReview(wf, ev, w);
    }

    /** The monitor loops consuming a finite sequence of events. */
    method Drive(wf: Workflow, events: seq<(WaitEvent, World)>)
      modifies this, wf
      ensures Outcome(phase, wf.Snapshot()) == Run(old(phase), old(wf.Snapshot()), events, reviewEnabled)
    {
      var i := 0;
      while i < |events|
        invariant 0 <= i <= |events|
        invariant Run(phase, wf.Snapshot(), events[i..], reviewEnabled) == Run(old(phase), old(wf.Snapshot()), events, reviewEnabled)
      {
        assert events[i..][1..] == events[i + 1..];
        HandleEvent(wf, events[i].0, events[i].1);
        i := i + 1;
      }
    }

    /** `respond_to_workflow`: refused (the ValueError's text) with nothing changed unless the
        workflow is blocked; otherwise the answer goes to the resume file and the workflow
        resumes its phase. */
    method RespondToWorkflow(wf: Workflow, dir: WorkflowDir, response: string, now: string) returns (err: Option<string>)
      modifies wf, dir
      ensures Responded(old(wf.Snapshot()), response, now).Err? <==> err.Some?
      ensures err.Some? ==>
        && err.value == Responded(old(wf.Snapshot()), response, now).error
        && wf.Snapshot() == old(wf.Snapshot()) && dir.files == old(dir.files)
      ensures err.None? ==>
        && wf.Snapshot() == Responded(old(wf.Snapshot()), response, now).value
        && dir.files == old(dir.files)[ResumeFile := ResumeDocument(response)]
    {
      if !wf.IsBlocked() {
        return Some("Workflow " + wf.id + " is not blocked");
      }
      dir.WriteAgentResponse(response);
      wf.SetUnblocked(response);
      if wf.state == PlanningBlocked {
        wf.UpdateState(Planning, now, None);
      } else if wf.state == ExecutionBlocked {
        wf.UpdateState(Executing, now, None);
      }
      err := None;
    }
  }
}

/**
 * The command-line front end (cli/cli.py): which workflows `list` shows and how their rows
 * read, the guards of `respond` and `cancel`, the phase `interact` and `shell` report, and
 * `_time_ago`. Printing, argument parsing and `input()` are not modelled: the arguments and
 * the line typed at the prompt are inputs, and a command's result is its exit code together
 * with what it changed.
 */
module Cli {
  import opened Wrappers
  import opened Models
  import Text
  import opened DockerManager
  import opened WorkflowManager

  // ---------------------------------------------------------------------------
  // list

  /** `[w for w in workflows if w.state in [PLANNING_BLOCKED, EXECUTION_BLOCKED]]`. */
  function KeepBlocked(ws: seq<WorkflowRecord>): (r: seq<WorkflowRecord>)
    ensures forall x :: x in r <==> x in ws && IsBlockedState(x.state)
    ensures |r| <= |ws|
    decreases |ws|
  {
    if ws == [] then []
    else
      var rest := KeepBlocked(ws[1..]);
      assert forall x :: x in ws <==> x == ws[0] || x in ws[1..];
      if IsBlockedState(ws[0].state) then [ws[0]] + rest else rest
  }

  /** The comprehension is a filter: it distributes over concatenation and keeps one workflow
      exactly when it is blocked. */
  lemma {:induction false} KeepBlockedFilters(a: seq<WorkflowRecord>, b: seq<WorkflowRecord>, x: WorkflowRecord)
    ensures KeepBlocked(a + b) == KeepBlocked(a) + KeepBlocked(b)
    ensures KeepBlocked([x]) == if IsBlockedState(x.state) then [x] else []
    decreases |a|
  {
    assert [x][1..] == [];
    if a == [] {
      assert a + b == b;
    } else {
      assert (a + b)[0] == a[0];
      assert (a + b)[1..] == a[1..] + b;
      KeepBlockedFilters(a[1..], b, x);
    }
  }

  /** Each blocked workflow is kept as many times as the list holds it, and no other is kept. */
  lemma {:induction false} KeepBlockedCounts(ws: seq<WorkflowRecord>)
    ensures forall x :: multiset(KeepBlocked(ws))[x] == if IsBlockedState(x.state) then multiset(ws)[x] else 0
    decreases |ws|
  {
    if ws != [] {
      assert ws == [ws[0]] + ws[1..];
      KeepBlockedCounts(ws[1..]);
    }
  }

  /** Keeping the blocked workflows keeps the most-recent-first order. */
  lemma {:induction false} KeepBlockedSorted(ws: seq<WorkflowRecord>)
    requires SortedByRecency(ws)
    ensures SortedByRecency(KeepBlocked(ws))
    decreases |ws|
  {
    if ws != [] {
      var rest := KeepBlocked(ws[1..]);
      assert SortedByRecency(ws[1..]) by {
        forall i, j | 0 <= i < j < |ws[1..]| ensures NewerOrSame(ws[1..][i], ws[1..][j]) {
          assert ws[1..][i] == ws[i + 1] && ws[1..][j] == ws[j + 1];
        }
      }
      KeepBlockedSorted(ws[1..]);
      if IsBlockedState(ws[0].state) {
        forall j | 0 <= j < |rest| ensures NewerOrSame(ws[0], rest[j]) {
          assert rest[j] in ws[1..];
          var k :| 0 <= k < |ws[1..]| && ws[1..][k] == rest[j];
          assert ws[k + 1] == rest[j];
        }
        SortedCons(ws[0], rest);
      }
    }
  }

  /** Whether `list` shows a workflow: only the blocked ones with `--blocked`, otherwise those
      whose state value is the `--state` argument when one is given, otherwise all. */
  predicate Shown(x: WorkflowRecord, blocked: bool, stateArg: Option<string>) {
    if blocked then IsBlockedState(x.state)
    else if Text.Truthy(stateArg) then StateValue(x.state) == stateArg.value
    else true
  }

  /** The selection `cmd_list` makes. A `--state` that names no state raises ValueError (this
      text); `--blocked` wins over `--state`. */
  method ListedWorkflows(entries: seq<Option<WorkflowRecord>>, blocked: bool, stateArg: Option<string>)
    returns (res: Result<seq<WorkflowRecord>>)
    ensures res.Err? <==> !blocked && Text.Truthy(stateArg) && ParseState(stateArg.value).None?
    ensures res.Err? ==> res.error == "'" + stateArg.value + "' is not a valid WorkflowState"
    ensures res.Ok? ==> SortedByRecency(res.value)
    ensures res.Ok? ==> forall x :: x in res.value <==> Some(x) in entries && Shown(x, blocked, stateArg)
    ensures res.Ok? ==> forall x :: multiset(res.value)[x] == if Shown(x, blocked, stateArg) then multiset(entries)[Some(x)] else 0
  {
    if blocked {
      var all := ListWorkflows(entries, None);
      KeepBlockedSorted(all);
      KeepBlockedCounts(all);
      return Ok(KeepBlocked(all));
    }
    if Text.Truthy(stateArg) {
      var parsed := ParseState(stateArg.value);
      if parsed.None? {
        return Err("'" + stateArg.value + "' is not a valid WorkflowState");
      }
      var ws := ListWorkflows(entries, parsed);
      assert forall x: WorkflowRecord :: Matches(x, parsed) <==> StateValue(x.state) == stateArg.value by {
        forall x: WorkflowRecord ensures Matches(x, parsed) <==> StateValue(x.state) == stateArg.value {
          if StateValue(x.state) == stateArg.value {
            StateValueInjective(x.state, parsed.value);
          }
        }
      }
      return Ok(ws);
    }
    var ws := ListWorkflows(entries, None);
    return Ok(ws);
  }

  /** The branch column: names longer than 40 characters are cut to 40 and marked "...". */
  function TruncateBranch(b: string): (r: string)
    ensures |r| <= 43 && Text.StartsWith(r, Text.Take(b, 40))
    ensures |b| <= 40 ==> r == b
    ensures |b| > 40 ==> |r| == 43 && r[40..] == "..."
  {
    if |b| > 40 then b[..40] + "..." else b
  }

  /** `_time_ago` over whole elapsed seconds. */
  function TimeAgo(seconds: int): (r: string)
    ensures |r| >= 5 && r[|r| - 4..] == " ago"
    ensures r[|r| - 5] == if seconds < 60 then 's' else if seconds < 3600 then 'm' else if seconds < 86400 then 'h' else 'd'
  {
    if seconds < 60 then Text.IntToString(seconds) + "s ago"
    else if seconds < 3600 then Text.IntToString(seconds / 60) + "m ago"
    else if seconds < 86400 then Text.IntToString(seconds / 3600) + "h ago"
    else Text.IntToString(seconds / 86400) + "d ago"
  }

  /** The reading names the largest whole unit: under a minute in seconds, then whole minutes,
      whole hours, whole days, each counted down (n units reads n as long as the time is short
      of n + 1 units). */
  lemma TimeAgoReading(seconds: int, n: nat)
    ensures seconds < 60 ==> TimeAgo(seconds) == Text.IntToString(seconds) + "s ago"
    ensures 1 <= n < 60 && n * 60 <= seconds < (n + 1) * 60 ==> TimeAgo(seconds) == Text.NatToString(n) + "m ago"
    ensures 1 <= n < 24 && n * 3600 <= seconds < (n + 1) * 3600 ==> TimeAgo(seconds) == Text.NatToString(n) + "h ago"
    ensures 1 <= n && n * 86400 <= seconds < (n + 1) * 86400 ==> TimeAgo(seconds) == Text.NatToString(n) + "d ago"
  {
    if 1 <= n < 60 && n * 60 <= seconds < (n + 1) * 60 {
      assert seconds / 60 == n;
    }
    if 1 <= n < 24 && n * 3600 <= seconds < (n + 1) * 3600 {
      assert seconds / 3600 == n;
    }
    if 1 <= n && n * 86400 <= seconds < (n + 1) * 86400 {
      assert seconds / 86400 == n;
    }
  }

  /** The updated column: the time since `updated_at` when it parses (`elapsed` holds the
      seconds since each timestamp that does), the raw text otherwise. */
  function UpdatedColumn(updatedAt: string, elapsed: map<string, int>): string {
    if updatedAt in elapsed then TimeAgo(elapsed[updatedAt]) else updatedAt
  }

  const NoneNotSubscriptable := "'NoneType' object is not subscriptable"

  /** One table row. With `--blocked` a recorded block adds its question cut to 60 characters
      and "..."; a block without a question makes the slice raise TypeError. */
  function Row(w: WorkflowRecord, blocked: bool, elapsed: map<string, int>): (row: Result<seq<string>>)
    ensures row.Err? <==> blocked && w.blockInfo.Some? && w.blockInfo.value.question.None?
    ensures row.Ok? ==> |row.value| == (if blocked && w.blockInfo.Some? then 6 else 5)
    ensures row.Ok? ==> row.value[..5] == [w.id, w.linearTicketId, StateValue(w.state),
                                           TruncateBranch(w.branchName), UpdatedColumn(w.updatedAt, elapsed)]
    ensures row.Ok? && |row.value| == 6 ==> row.value[5] == Text.Take(w.blockInfo.value.question.value, 60) + "..."
  {
    var base := [w.id, w.linearTicketId, StateValue(w.state), TruncateBranch(w.branchName), UpdatedColumn(w.updatedAt, elapsed)];
    if blocked && w.blockInfo.Some? then
      match w.blockInfo.value.question
      case None => Err(NoneNotSubscriptable)
      case Some(q) =>
        var row := base + [Text.Take(q, 60) + "..."];
        assert row[..5] == base;
        Ok(row)
    else Ok(base)
  }

  /** The rows of the table, in order, or the first row's error. */
  function Rows(ws: seq<WorkflowRecord>, blocked: bool, elapsed: map<string, int>): (rows: Result<seq<seq<string>>>)
    decreases |ws|
  {
    if ws == [] then Ok([])
    else
      var front :- Rows(ws[..|ws| - 1], blocked, elapsed);
      var row :- Row(ws[|ws| - 1], blocked, elapsed);
      Ok(front + [row])
  }

  /** One row per workflow, each the workflow's own row, and an error exactly when some
      workflow's row fails. */
  lemma {:induction false} RowsExactly(ws: seq<WorkflowRecord>, blocked: bool, elapsed: map<string, int>)
    ensures Rows(ws, blocked, elapsed).Err? <==> exists i :: 0 <= i < |ws| && Row(ws[i], blocked, elapsed).Err?
    ensures Rows(ws, blocked, elapsed).Ok? ==>
      && |Rows(ws, blocked, elapsed).value| == |ws|
      && forall i :: 0 <= i < |ws| ==> Row(ws[i], blocked, elapsed) == Ok(Rows(ws, blocked, elapsed).value[i])
    decreases |ws|
  {
    if ws != [] {
      var n := |ws| - 1;
      var front := ws[..n];
      RowsExactly(front, blocked, elapsed);
      assert forall i :: 0 <= i < n ==> front[i] == ws[i];
      if Rows(front, blocked, elapsed).Ok? && Row(ws[n], blocked, elapsed).Ok? {
        var all := Rows(ws, blocked, elapsed).value;
        assert all == Rows(front, blocked, elapsed).value + [Row(ws[n], blocked, elapsed).value];
      }
    }
  }

  lemma RowsStep(ws: seq<WorkflowRecord>, blocked: bool, elapsed: map<string, int>, i: nat)
    requires i < |ws| && Rows(ws[..i], blocked, elapsed).Ok?
    ensures Rows(ws[..i + 1], blocked, elapsed)
         == match Row(ws[i], blocked, elapsed)
            case Err(e) => Err(e)
            case Ok(row) => Ok(Rows(ws[..i], blocked, elapsed).value + [row])
  {
    assert ws[..i + 1][..i] == ws[..i];
  }

  /** The loop of `cmd_list` that builds the table. */
  method TableRows(ws: seq<WorkflowRecord>, blocked: bool, elapsed: map<string, int>) returns (rows: Result<seq<seq<string>>>)
    ensures rows == Rows(ws, blocked, elapsed)
  {
    var table: seq<seq<string>> := [];
    var i := 0;
    while i < |ws|
      invariant 0 <= i <= |ws|
      invariant Rows(ws[..i], blocked, elapsed) == Ok(table)
    {
      RowsStep(ws, blocked, elapsed, i);
      var row := Row(ws[i], blocked, elapsed);
      if row.Err? {
        assert Rows(ws[..i + 1], blocked, elapsed) == Err(row.error);
        RowsErrorPersists(ws, blocked, elapsed, i + 1);
        return Err(row.error);
      }
      table := table + [row.value];
      i := i + 1;
    }
    assert ws[..i] == ws;
    return Ok(table);
  }

  /** Once a prefix fails, the whole table fails with the same error. */
  lemma {:induction false} RowsErrorPersists(ws: seq<WorkflowRecord>, blocked: bool, elapsed: map<string, int>, k: nat)
    requires k <= |ws| && Rows(ws[..k], blocked, elapsed).Err?
    ensures Rows(ws, blocked, elapsed) == Rows(ws[..k], blocked, elapsed)
    decreases |ws| - k
  {
    if k < |ws| {
      assert ws[..k + 1][..k] == ws[..k];
      RowsErrorPersists(ws, blocked, elapsed, k + 1);
    } else {
      assert ws[..k] == ws;
    }
  }

  // ---------------------------------------------------------------------------
  // interact and shell

  /** The phase `interact` and `shell` report. */
  function PhaseLabel(s: WorkflowState): string {
    if s == Planning || s == PlanningBlocked || s == Planned then "planning" else "execution"
  }

  /** The agent `interact` talks to: the planner in the planning phase, the executor otherwise. */
  function SessionAgent(r: WorkflowRecord): AgentType {
    if PhaseLabel(r.state) == "planning" then r.plannerModel else r.executorModel
  }

  /** The guards of `interact` and `shell`: a container must be recorded and `docker inspect`
      must report it running; then the session is for this phase and agent. */
  function SessionTarget(r: WorkflowRecord, inspectOut: Option<string>): (res: Result<(string, AgentType)>)
    ensures res.Err? <==> !Text.Truthy(r.containerId) || !IsContainerRunning(inspectOut)
    ensures res.Ok? ==> res.value.0 == PhaseLabel(r.state) && res.value.1 == SessionAgent(r)
  {
    if !Text.Truthy(r.containerId) then Err("No active container found for this workflow")
    else if !IsContainerRunning(inspectOut) then Err("Container is not running")
    else Ok((PhaseLabel(r.state), SessionAgent(r)))
  }

  /** The label is "planning" exactly in PLANNING, PLANNING_BLOCKED and PLANNED, and during a
      run it names the monitor at work: "planning" while planning is monitored, "execution"
      while execution or the review is. */
  lemma PhaseLabelAgrees(phase: Phase, r: WorkflowRecord)
    requires PhaseConsistent(phase, r) && phase != Idle
    ensures PhaseLabel(r.state) == "planning" <==> phase == MonitoringPlanning
    ensures PhaseLabel(r.state) == "planning" <==> r.state in {Planning, PlanningBlocked, Planned}
  {
    assert "planning" != "execution";
  }

  // ---------------------------------------------------------------------------
  // respond and cancel

  /** The answer `respond` submits: the `--response` argument when non-empty, otherwise the
      line typed at the prompt with surrounding whitespace removed. */
  function ChosenResponse(responseArg: Option<string>, typed: string): string {
    if Text.Truthy(responseArg) then responseArg.value else Text.Strip(typed)
  }

  /** `cmd_respond` on a loaded workflow. Exit code 1 with nothing changed when the workflow
      is not blocked, when it has no block recorded (reading its question raises), or when
      the answer is empty; otherwise the manager records the answer and the code is 0. */
  method RespondCommand(manager: Manager, wf: Workflow, dir: WorkflowDir, responseArg: Option<string>, typed: string, now: string)
    returns (code: int)
    modifies wf, dir
    ensures var ok := IsBlockedState(old(wf.state)) && old(wf.blockInfo).Some? && ChosenResponse(responseArg, typed) != "";
      && (code == 0 <==> ok)
      && (code == 0 || code == 1)
      && (!ok ==> wf.Snapshot() == old(wf.Snapshot()) && dir.files == old(dir.files))
      && (ok ==> wf.Snapshot() == Responded(old(wf.Snapshot()), ChosenResponse(responseArg, typed), now).value
                 && dir.files == old(dir.files)[ResumeFile := ResumeDocument(ChosenResponse(responseArg, typed))])
  {
    if !wf.IsBlocked() {
      return 1;
    }
    if wf.blockInfo.None? {
      return 1;
    }
    var response := ChosenResponse(responseArg, typed);
    if response == "" {
      return 1;
    }
    var err := manager.RespondToWorkflow(wf, dir, response, now);
    code := if err.Some? then 1 else 0;
  }

  /** `cmd_cancel` on a loaded workflow. A terminal workflow is refused with code 1 and left
      as it is. Otherwise the recorded container is stopped and then force-removed, and the
      workflow becomes CANCELLED whatever the container commands did. A failing `docker stop`
      is caught inside `stop_container`, so `docker rm -f` still follows it; only an exception
      escaping `stop_container` (the docker binary cannot be run at all, `stopRaised`) skips
      the removal. `commands` are the docker commands issued. */
  method CancelCommand(wf: Workflow, stopRaised: bool, now: string) returns (code: int, commands: seq<seq<string>>)
    modifies wf
    ensures IsTerminalState(old(wf.state)) ==> code == 1 && commands == [] && wf.Snapshot() == old(wf.Snapshot())
    ensures !IsTerminalState(old(wf.state)) ==>
      && code == 0 && wf.IsTerminal()
      && wf.Snapshot() == UpdatedState(old(wf.Snapshot()), Cancelled, now, None)
      && commands == (if Text.Truthy(old(wf.containerId))
                      then [StopCommand(old(wf.containerId).value, 10)]
                           + (if stopRaised then [] else [RemoveCommand(old(wf.containerId).value, true)])
                      else [])
  {
    if wf.IsTerminal() {
      return 1, [];
    }
    commands := [];
    if wf.containerId.Some? && wf.containerId.value != "" {
      var id := wf.containerId.value;
      commands := [StopCommand(id, 10)];
      if !stopRaised {
        commands := commands + [RemoveCommand(id, true)];
      }
    }
    wf.UpdateState(Cancelled, now, None);
    code := 0;
  }
}

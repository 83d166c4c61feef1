/**
 * The container side of the protocol (orchestrator/docker_manager.py): the status and resume
 * files an agent and the orchestrator exchange through the workflow directory, the events one
 * poll of `wait_for_container` yields, and the `docker` command lines the manager runs.
 *
 * The container itself is not modelled: whether it is running, and what the directory holds at
 * each poll, are inputs.
 */
module DockerManager {
  import opened Wrappers
  import opened Json
  import opened Models
  import Text

  const StatusFile := ".workflow-status.json"
  const ResumeFile := ".workflow-resume.json"

  /** What `wait_for_container` yields: ("running", None), ("exited", None), or a status
      event together with the agent's status. */
  datatype WaitEvent =
    | Running
    | Exited
    | BlockedEvent(status: AgentStatus)
    | CompleteEvent(status: AgentStatus)
    | ErrorEvent(status: AgentStatus)
  {
    /** Events after which the generator stops. */
    predicate IsFinal() { Exited? || CompleteEvent? || ErrorEvent? }
  }

  /** `check_agent_status`: the agent's status when the status file exists and decodes; a
      missing file, text that is not JSON and a document that does not fit all give None
      (every exception is caught). */
  function CheckAgentStatus(files: map<string, FileBody>): (r: Option<AgentStatus>)
    ensures StatusFile !in files ==> r.None?
    ensures StatusFile in files && files[StatusFile].Malformed? ==> r.None?
    ensures r.Some? <==> StatusFile in files && files[StatusFile].Doc? && AgentStatusFromJson(files[StatusFile].value).Ok?
    ensures r.Some? ==> AgentStatusFromJson(files[StatusFile].value) == Ok(r.value)
  {
    if StatusFile !in files then None
    else match files[StatusFile]
      case Malformed => None
      case Doc(j) =>
        match AgentStatusFromJson(j)
        case Ok(s) => Some(s)
        case Err(_) => None
  }

  /** One pass of the `while True` body of `wait_for_container`: the events it yields and
      whether the generator stops. `watch` is whether a workflow directory was given. */
  function Poll(running: bool, watch: bool, files: map<string, FileBody>): (p: (seq<WaitEvent>, bool))
    ensures 1 <= |p.0| <= 2
    ensures !running ==> p == ([Exited], true)
    ensures p.1 ==> |p.0| == 1 && p.0[0].IsFinal()
  {
    if !running then ([Exited], true)
    else if !watch then ([Running], false)
    else match CheckAgentStatus(files)
      case None => ([Running], false)
      case Some(s) =>
        if s.status == "blocked" then ([BlockedEvent(s), Running], false)
        else if s.status == "complete" then ([CompleteEvent(s)], true)
        else if s.status == "error" then ([ErrorEvent(s)], true)
        else ([Running], false)
  }

  /** A stopped container yields exactly one "exited" and stops, whatever the directory holds. */
  lemma PollExited(watch: bool, files: map<string, FileBody>, other: map<string, FileBody>)
    ensures Poll(false, watch, files) == ([Exited], true)
    ensures Poll(false, watch, files) == Poll(false, watch, other)
  {
  }

  /** A status of "complete" or "error" yields that event alone and stops; "blocked" yields the
      event, then "running" once the resume file is there, and polling continues; no status, a
      status file that does not decode, or any other status yields only "running". */
  lemma PollClassifies(watch: bool, files: map<string, FileBody>)
    ensures var st := CheckAgentStatus(files);
      var (events, stop) := Poll(true, watch, files);
      && (watch && st.Some? && st.value.status == "complete" ==> events == [CompleteEvent(st.value)] && stop)
      && (watch && st.Some? && st.value.status == "error" ==> events == [ErrorEvent(st.value)] && stop)
      && (watch && st.Some? && st.value.status == "blocked" ==> events == [BlockedEvent(st.value), Running] && !stop)
      && (!watch || st.None? || st.value.status !in {"blocked", "complete", "error"} ==> events == [Running] && !stop)
  {
  }

  /** A poll yields one or two events; it stops exactly when its last event is final, a
      continuing poll ends with "running", and a "blocked" is always followed by "running". */
  lemma PollShape(running: bool, watch: bool, files: map<string, FileBody>)
    ensures var p := Poll(running, watch, files); var events := p.0; var stop := p.1;
      && 1 <= |events| <= 2
      && (stop <==> events[|events| - 1].IsFinal())
      && (!stop ==> events[|events| - 1] == Running)
      && (forall i :: 0 <= i < |events| - 1 ==> !events[i].IsFinal())
      && (forall i :: 0 <= i < |events| && events[i].BlockedEvent? ==> i + 1 < |events| && events[i + 1] == Running)
  {
  }

  /** One poll of the container: whether it is running and what the workflow directory then holds. */
  datatype Observation = Observation(running: bool, files: map<string, FileBody>)

  /** The events `wait_for_container` yields over the given polls, up to the one that stops it. */
  function Events(polls: seq<Observation>, watch: bool): (ev: seq<WaitEvent>)
    ensures polls != [] <==> ev != []
    ensures |ev| <= 2 * |polls|
    decreases |polls|
  {
    if polls == [] then []
    else
      var (events, stop) := Poll(polls[0].running, watch, polls[0].files);
      if stop then events else events + Events(polls[1..], watch)
  }

  /** Unfolding `Events` at the poll with index `i`. */
  lemma EventsAt(polls: seq<Observation>, watch: bool, i: nat)
    requires i < |polls|
    ensures Poll(polls[i].running, watch, polls[i].files).1 ==>
      Events(polls[i..], watch) == Poll(polls[i].running, watch, polls[i].files).0
    ensures !Poll(polls[i].running, watch, polls[i].files).1 ==>
      Events(polls[i..], watch) == Poll(polls[i].running, watch, polls[i].files).0 + Events(polls[i + 1..], watch)
  {
    assert polls[i..][0] == polls[i];
    assert polls[i..][1..] == polls[i + 1..];
  }

  /** Only the last event can be final; a "blocked" is always followed by "running". */
  lemma {:induction false} EventsShape(polls: seq<Observation>, watch: bool)
    ensures forall i :: 0 <= i < |Events(polls, watch)| - 1 ==> !Events(polls, watch)[i].IsFinal()
    ensures forall i :: 0 <= i < |Events(polls, watch)| && Events(polls, watch)[i].BlockedEvent? ==>
      i + 1 < |Events(polls, watch)| && Events(polls, watch)[i + 1] == Running
    decreases |polls|
  {
    if polls != [] {
      var p := Poll(polls[0].running, watch, polls[0].files);
      var events := p.0;
      PollShape(polls[0].running, watch, polls[0].files);
      if !p.1 {
        var rest := Events(polls[1..], watch);
        EventsShape(polls[1..], watch);
        assert forall j :: 0 <= j < |rest| - 1 ==> !rest[j].IsFinal();
        assert forall j :: 0 <= j < |rest| && rest[j].BlockedEvent? ==> j + 1 < |rest| && rest[j + 1] == Running;
        assert events[|events| - 1] == Running;
        var es := events + rest;
        assert Events(polls, watch) == es;
        forall i | 0 <= i < |es| - 1
          ensures !es[i].IsFinal()
        {
          if i < |events| {
            assert es[i] == events[i];
          } else {
            assert es[i] == rest[i - |events|];
          }
        }
        forall i | 0 <= i < |es| && es[i].BlockedEvent?
          ensures i + 1 < |es| && es[i + 1] == Running
        {
          if i < |events| {
            assert es[i] == events[i];
            assert es[i + 1] == events[i + 1];
          } else {
            assert es[i] == rest[i - |events|];
            assert es[i + 1] == rest[i + 1 - |events|];
          }
        }
      }
    }
  }

  /** While the container runs and the status file keeps saying "blocked", every poll yields
      "blocked" then "running" again: the file is not removed on the agent's behalf. */
  lemma {:induction false} BlockedRepeats(polls: seq<Observation>, files: map<string, FileBody>, s: AgentStatus)
    requires CheckAgentStatus(files) == Some(s) && s.status == "blocked"
    requires forall i :: 0 <= i < |polls| ==> polls[i] == Observation(true, files)
    ensures |Events(polls, true)| == 2 * |polls|
    ensures forall i :: 0 <= i < |polls| ==> Events(polls, true)[2 * i] == BlockedEvent(s) && Events(polls, true)[2 * i + 1] == Running
    decreases |polls|
  {
    if polls != [] {
      BlockedRepeats(polls[1..], files, s);
      var rest := Events(polls[1..], true);
      assert Events(polls, true) == [BlockedEvent(s), Running] + rest;
      forall i | 0 <= i < |polls|
        ensures Events(polls, true)[2 * i] == BlockedEvent(s) && Events(polls, true)[2 * i + 1] == Running
      {
        if i > 0 {
          assert Events(polls, true)[2 * i] == rest[2 * (i - 1)];
          assert Events(polls, true)[2 * i + 1] == rest[2 * (i - 1) + 1];
        }
      }
    }
  }

  /** One iteration of the polling loop, in terms of `Events`. */
  lemma WaitStep(polls: seq<Observation>, watch: bool, used: nat, events: seq<WaitEvent>)
    requires used < |polls| && events + Events(polls[used..], watch) == Events(polls, watch)
    ensures var p := Poll(polls[used].running, watch, polls[used].files);
      && (p.1 ==> events + p.0 == Events(polls, watch) && (events + p.0)[|events + p.0| - 1].IsFinal())
      && (!p.1 ==> (events + p.0) + Events(polls[used + 1..], watch) == Events(polls, watch))
  {
    var p := Poll(polls[used].running, watch, polls[used].files);
    EventsAt(polls, watch, used);
    PollShape(polls[used].running, watch, polls[used].files);
    if p.1 {
      assert (events + p.0)[|events + p.0| - 1] == p.0[|p.0| - 1];
    } else {
      assert (events + p.0) + Events(polls[used + 1..], watch) == events + (p.0 + Events(polls[used + 1..], watch));
    }
  }

  /** `wait_for_container`, driven over a finite sequence of polls: the events it yields and the
      number of polls it consumed before stopping (all of them if it never stopped). */
  method WaitForContainer(polls: seq<Observation>, watch: bool) returns (events: seq<WaitEvent>, used: nat)
    ensures events == Events(polls, watch)
    ensures used <= |polls|
    ensures used < |polls| ==> events != [] && events[|events| - 1].IsFinal()
  {
    events := [];
    used := 0;
    while used < |polls|
      invariant used <= |polls|
      invariant events + Events(polls[used..], watch) == Events(polls, watch)
    {
      var step := Poll(polls[used].running, watch, polls[used].files);
      WaitStep(polls, watch, used, events);
      events := events + step.0;
      used := used + 1;
      if step.1 {
        return;
      }
    }
    assert polls[used..] == [];
    assert events + [] == events;
  }

  /** The files of one workflow directory, which `write_agent_response` and `clear_status_files`
      change in place. */
  class WorkflowDir {
    var files: map<string, FileBody>

    constructor (initial: map<string, FileBody>)
      ensures files == initial
    {
      files := initial;
    }

    function AgentStatus(): Option<Models.AgentStatus>
      reads this
    {
      CheckAgentStatus(files)
    }

    /** `write_agent_response`: the resume file holds exactly {"response": response}. */
    method WriteAgentResponse(response: string)
      modifies this
      ensures files == old(files)[ResumeFile := ResumeDocument(response)]
      ensures files[ResumeFile] == Doc(JObj(map["response" := JStr(response)]))
    {
      files := files[ResumeFile := ResumeDocument(response)];
    }

    /** `clear_status_files`: both protocol files removed, every other file untouched. */
    method ClearStatusFiles()
      modifies this
      ensures files == Cleared(old(files))
    {
      if StatusFile in files {
        files := map k | k in files && k != StatusFile :: files[k];
      }
      if ResumeFile in files {
        files := map k | k in files && k != ResumeFile :: files[k];
      }
    }
  }

  function ResumeDocument(response: string): FileBody {
    Doc(JObj(map["response" := JStr(response)]))
  }

  /** The directory after `clear_status_files`. */
  function Cleared(files: map<string, FileBody>): (r: map<string, FileBody>)
    ensures StatusFile !in r && ResumeFile !in r
    ensures forall k :: k != StatusFile && k != ResumeFile ==> (k in r <==> k in files)
    ensures forall k :: k in r ==> r[k] == files[k]
  {
    map k | k in files && k != StatusFile && k != ResumeFile :: files[k]
  }

  /** Clearing twice is clearing once; after clearing, the agent reports no status. */
  lemma ClearedIdempotent(files: map<string, FileBody>)
    ensures Cleared(Cleared(files)) == Cleared(files)
    ensures CheckAgentStatus(Cleared(files)).None?
  {
  }

  /** A response written for the agent leaves its status file, and so its reported status, alone. */
  lemma ResponseKeepsStatus(files: map<string, FileBody>, response: string)
    ensures CheckAgentStatus(files[ResumeFile := ResumeDocument(response)]) == CheckAgentStatus(files)
  {
    var f := files[ResumeFile := ResumeDocument(response)];
    assert StatusFile != ResumeFile by { assert StatusFile[10] != ResumeFile[10]; }
    assert (StatusFile in f) == (StatusFile in files);
  }

  // ---------------------------------------------------------------------------
  // docker command lines

  /** The environment of `start_agent_container`, in insertion order. */
  function AgentEnv(agent: AgentType, repoUrl: string, branch: string, githubToken: Option<string>): (env: seq<(string, string)>)
    ensures |env| == if Text.Truthy(githubToken) then 7 else 6
    ensures (exists i :: 0 <= i < |env| && env[i].0 == "GITHUB_TOKEN") <==> Text.Truthy(githubToken)
    ensures Text.Truthy(githubToken) ==> env[6] == ("GITHUB_TOKEN", githubToken.value)
    ensures env[..6] == [("LLM_TYPE", AgentValue(agent)), ("GIT_REPO_URL", repoUrl), ("GIT_BRANCH", branch),
                         ("CLAUDE_SKIP_PERMISSIONS", "true"), ("CODEX_YOLO", "true"), ("CODEX_APPROVAL_POLICY", "yolo")]
  {
    var base := [("LLM_TYPE", AgentValue(agent)), ("GIT_REPO_URL", repoUrl), ("GIT_BRANCH", branch),
                 ("CLAUDE_SKIP_PERMISSIONS", "true"), ("CODEX_YOLO", "true"), ("CODEX_APPROVAL_POLICY", "yolo")];
    assert forall i :: 0 <= i < |base| ==> base[i].0 != "GITHUB_TOKEN" by {
      forall i | 0 <= i < |base| ensures base[i].0 != "GITHUB_TOKEN" {
        assert |base[i].0| != |"GITHUB_TOKEN"| || base[i].0[0] != 'G' || base[i].0[3] != 'H';
      }
    }
    if Text.Truthy(githubToken) then
      var env := base + [("GITHUB_TOKEN", githubToken.value)];
      assert env[6].0 == "GITHUB_TOKEN";
      env
    else base
  }

  /** The agent credentials mounted from the current directory: path below it, path in the container. */
  const CredentialMounts: seq<(string, string)> := [
    ("claude-data", "/home/node/.claude"),
    ("codex-data", "/home/node/.codex"),
    ("git-data/.gitconfig", "/home/node/.gitconfig"),
    ("git-data/.ssh", "/home/node/.ssh"),
    ("git-data/.config/gh", "/home/node/.config/gh")]

  /** One `-v HOST:CONTAINER` pair per credential, the host path below `cwd`. */
  function CredentialArgs(cwd: string, ms: seq<(string, string)>): (a: seq<string>)
    ensures |a| == 2 * |ms|
    ensures forall i :: 0 <= i < |ms| ==> a[2 * i] == "-v" && a[2 * i + 1] == cwd + "/" + ms[i].0 + ":" + ms[i].1
    decreases |ms|
  {
    if ms == [] then [] else ["-v", cwd + "/" + ms[0].0 + ":" + ms[0].1] + CredentialArgs(cwd, ms[1..])
  }

  /** The six `-v` mounts: the workflow directory on the workspace, then the agent credentials
      under the current directory. */
  function Mounts(workflowDir: string, workspaceBase: string, cwd: string): (m: seq<string>)
    ensures |m| == 12
    ensures forall i :: 0 <= i < 6 ==> m[2 * i] == "-v"
    ensures m[1] == workflowDir + ":" + workspaceBase
    ensures forall i :: 0 <= i < |CredentialMounts| ==>
      m[3 + 2 * i] == cwd + "/" + CredentialMounts[i].0 + ":" + CredentialMounts[i].1
  {
    var creds := CredentialArgs(cwd, CredentialMounts);
    var m := ["-v", workflowDir + ":" + workspaceBase] + creds;
    assert forall j :: 0 <= j < |creds| ==> m[2 + j] == creds[j];
    m
  }

  /** The argument vector of `start_agent_container`: `docker run -d --name N -w BASE`, one
      `-e K=V` pair per environment entry, the mounts, then image, agent and prompt.
      `workflowDir` is the directory's absolute path and `cwd` the current directory. */
  method StartAgentCommand(containerName: string, agent: AgentType, workflowDir: string, repoUrl: string,
                           branch: string, prompt: string, githubToken: Option<string>,
                           image: string, workspaceBase: string, cwd: string)
    returns (cmd: seq<string>)
    ensures var env := AgentEnv(agent, repoUrl, branch, githubToken);
      && |cmd| == 7 + 2 * |env| + 12 + 3
      && cmd[..7] == ["docker", "run", "-d", "--name", containerName, "-w", workspaceBase]
      && (forall i :: 0 <= i < |env| ==> cmd[7 + 2 * i] == "-e" && cmd[8 + 2 * i] == env[i].0 + "=" + env[i].1)
      && cmd[7 + 2 * |env|..7 + 2 * |env| + 12] == Mounts(workflowDir, workspaceBase, cwd)
      && cmd[|cmd| - 3..] == [image, AgentValue(agent), prompt]
  {
    var env := AgentEnv(agent, repoUrl, branch, githubToken);
    cmd := ["docker", "run", "-d", "--name", containerName, "-w", workspaceBase];
    var i := 0;
    while i < |env|
      invariant 0 <= i <= |env|
      invariant |cmd| == 7 + 2 * i
      invariant cmd[..7] == ["docker", "run", "-d", "--name", containerName, "-w", workspaceBase]
      invariant forall j :: 0 <= j < i ==> cmd[7 + 2 * j] == "-e" && cmd[8 + 2 * j] == env[j].0 + "=" + env[j].1
    {
      var (key, value) := env[i];
      cmd := cmd + ["-e", key + "=" + value];
      i := i + 1;
    }
    cmd := cmd + Mounts(workflowDir, workspaceBase, cwd);
    cmd := cmd + [image, AgentValue(agent), prompt];
  }

  /** The argument vector of `get_container_logs`: `--tail N` only when `tail` is truthy. */
  function LogsCommand(containerId: string, tail: Option<int>): (cmd: seq<string>)
    ensures |cmd| == 3 || |cmd| == 5
    ensures cmd[..3] == ["docker", "logs", containerId]
    ensures |cmd| == 5 <==> tail.Some? && tail.value != 0
    ensures |cmd| == 5 ==> cmd[3..] == ["--tail", Text.IntToString(tail.value)]
  {
    var cmd := ["docker", "logs", containerId];
    if tail.Some? && tail.value != 0 then cmd + ["--tail", Text.IntToString(tail.value)] else cmd
  }

  /** The argument vector of `stop_container` (`timeout` defaults to 10 at the call sites). */
  function StopCommand(containerId: string, timeout: int): (cmd: seq<string>)
    ensures |cmd| == 5 && cmd[..3] == ["docker", "stop", "-t"]
    ensures cmd[3] == Text.IntToString(timeout) && cmd[4] == containerId
  {
    ["docker", "stop", "-t", Text.IntToString(timeout), containerId]
  }

  /** The argument vector of `remove_container`: `-f` only when forced, the container last. */
  function RemoveCommand(containerId: string, force: bool): (cmd: seq<string>)
    ensures |cmd| == if force then 4 else 3
    ensures cmd[..2] == ["docker", "rm"] && cmd[|cmd| - 1] == containerId
    ensures force ==> cmd[2] == "-f"
  {
    if force then ["docker", "rm", "-f", containerId] else ["docker", "rm", containerId]
  }

  /** `is_container_running` given the stdout of `docker inspect -f {{.State.Running}}`, or
      None when the command failed. */
  predicate IsContainerRunning(stdout: Option<string>) {
    stdout.Some? && Text.Lower(Text.Strip(stdout.value)) == "true"
  }

  /** A failed inspection means "not running"; surrounding whitespace and letter case in the
      answer do not matter. */
  lemma RunningAnswer(pre: string, word: string, post: string)
    requires forall i :: 0 <= i < |pre| ==> Text.IsSpace(pre[i])
    requires forall i :: 0 <= i < |post| ==> Text.IsSpace(post[i])
    requires word != [] && !Text.IsSpace(word[0]) && !Text.IsSpace(word[|word| - 1])
    ensures !IsContainerRunning(None)
    ensures IsContainerRunning(Some(pre + word + post)) <==> Text.Lower(word) == "true"
  {
    Text.StripPadded(pre, word, post);
  }
}

/**
 * The pure parts of the Linear client (orchestrator/linear_client.py): the markdown the
 * agents read for a ticket, the local file names of downloaded attachments, and the choice of
 * the workflow state an issue is moved to. The GraphQL requests and HTTP downloads are not
 * modelled; what they answer (the issue, the team's states, whether a download was saved)
 * is an input.
 */
module LinearClient {
  import opened Wrappers
  import Text

  datatype Person = Person(name: string, email: string)

  datatype IssueState = IssueState(name: string, kind: string)

  /** One attachment node; a key the response leaves out is None. */
  datatype Attachment = Attachment(title: Option<string>, url: Option<string>)

  /** The issue as `get_issue` returns it. An optional part is Some when the key holds a
      non-empty object; `labels` are the label names (none when the key is absent). */
  datatype Issue = Issue(identifier: string, title: string, url: string,
                         assignee: Option<Person>, project: Option<string>, team: Option<string>,
                         state: Option<IssueState>, labels: seq<string>,
                         description: Option<string>, attachments: seq<Attachment>)

  /** `d.get(key, default)`. */
  function Get(o: Option<string>, default: string): string {
    if o.Some? then o.value else default
  }

  // ---------------------------------------------------------------------------
  // Attachment file names

  /** The local name of an attachment: its title when that is non-empty, otherwise the last
      path segment of the URL without its query string. */
  function FileNameFor(title: string, url: string): (name: string)
    ensures title != "" ==> name == title
    ensures title == "" ==> forall i :: 0 <= i < |name| ==> name[i] != '/' && name[i] != '?'
  {
    if title != "" then title else Text.BeforeFirst(Text.AfterLast(url, '/'), '?')
  }

  lemma NoSlashAfterName(name: string, query: string)
    requires forall i :: 0 <= i < |name| ==> name[i] != '/'
    requires forall i :: 0 <= i < |query| ==> query[i] != '/'
    ensures forall i :: 0 <= i < |name + ['?'] + query| ==> (name + ['?'] + query)[i] != '/'
  {
    var rest := name + ['?'] + query;
    forall i | 0 <= i < |rest| ensures rest[i] != '/' {
      if i < |name| { assert rest[i] == name[i]; }
      else if i > |name| { assert rest[i] == query[i - |name| - 1]; }
    }
  }

  /** Without a title, the name is the URL's last segment, query removed. */
  lemma FileNameFromUrl(pre: string, name: string, query: string)
    requires forall i :: 0 <= i < |name| ==> name[i] != '/' && name[i] != '?'
    requires forall i :: 0 <= i < |query| ==> query[i] != '/'
    ensures FileNameFor("", pre + ['/'] + (name + ['?'] + query)) == name
  {
    NoSlashAfterName(name, query);
    Text.AfterLastSegment(pre, '/', name + ['?'] + query);
    Text.BeforeFirstSegment(name, '?', query);
  }

  /** Without a title or a query, the name is the URL's last segment. */
  lemma FileNameFromPlainUrl(pre: string, name: string)
    requires forall i :: 0 <= i < |name| ==> name[i] != '/' && name[i] != '?'
    ensures FileNameFor("", pre + ['/'] + name) == name
  {
    Text.AfterLastSegment(pre, '/', name);
  }

  /** The name `download_attachments` saves an attachment under (title defaults to "attachment"). */
  function DownloadName(a: Attachment): string
    requires a.url.Some?
  {
    FileNameFor(Get(a.title, "attachment"), a.url.value)
  }

  /** An attachment is downloaded when it has a non-empty URL and fetching and writing it
      succeeded. */
  predicate Downloadable(a: Attachment, saved: bool) {
    Text.Truthy(a.url) && saved
  }

  /** The paths `download_attachments` reports, in order; `saved[i]` says whether the i-th
      download and write succeeded (a failure is logged and skipped). */
  function Downloaded(attachments: seq<Attachment>, outputDir: string, saved: seq<bool>): (paths: seq<string>)
    requires |saved| == |attachments|
    ensures |paths| <= |attachments|
    decreases |attachments|
  {
    if attachments == [] then []
    else
      var n := |attachments| - 1;
      var front := Downloaded(attachments[..n], outputDir, saved[..n]);
      if Downloadable(attachments[n], saved[n]) then front + [outputDir + "/" + DownloadName(attachments[n])]
      else front
  }

  lemma DownloadedStep(attachments: seq<Attachment>, outputDir: string, saved: seq<bool>, i: nat)
    requires |saved| == |attachments| && i < |attachments|
    ensures Downloaded(attachments[..i + 1], outputDir, saved[..i + 1])
         == Downloaded(attachments[..i], outputDir, saved[..i])
            + (if Downloadable(attachments[i], saved[i]) then [outputDir + "/" + DownloadName(attachments[i])] else [])
  {
    assert attachments[..i + 1][..i] == attachments[..i];
    assert saved[..i + 1][..i] == saved[..i];
  }

  /** `download_attachments`. */
  method DownloadAttachments(attachments: seq<Attachment>, outputDir: string, saved: seq<bool>) returns (downloaded: seq<string>)
    requires |saved| == |attachments|
    ensures downloaded == Downloaded(attachments, outputDir, saved)
  {
    downloaded := [];
    var i := 0;
    while i < |attachments|
      invariant 0 <= i <= |attachments|
      invariant downloaded == Downloaded(attachments[..i], outputDir, saved[..i])
    {
      DownloadedStep(attachments, outputDir, saved, i);
      var a := attachments[i];
      if a.url.Some? && a.url.value != "" && saved[i] {
        downloaded := downloaded + [outputDir + "/" + DownloadName(a)];
      }
      i := i + 1;
    }
    assert attachments[..i] == attachments && saved[..i] == saved;
  }

  /** `path` is where one of the attachments was saved. */
  predicate SavedFrom(attachments: seq<Attachment>, outputDir: string, saved: seq<bool>, path: string)
    requires |saved| == |attachments|
  {
    exists i :: 0 <= i < |attachments| && Downloadable(attachments[i], saved[i]) && path == outputDir + "/" + DownloadName(attachments[i])
  }

  /** Every downloadable attachment is reported, and only those are. */
  lemma {:induction false} DownloadedExactly(attachments: seq<Attachment>, outputDir: string, saved: seq<bool>)
    requires |saved| == |attachments|
    ensures forall i :: 0 <= i < |attachments| && Downloadable(attachments[i], saved[i]) ==>
      outputDir + "/" + DownloadName(attachments[i]) in Downloaded(attachments, outputDir, saved)
    ensures forall p :: p in Downloaded(attachments, outputDir, saved) ==> SavedFrom(attachments, outputDir, saved, p)
    decreases |attachments|
  {
    if attachments != [] {
      var n := |attachments| - 1;
      var fa := attachments[..n];
      var fs := saved[..n];
      DownloadedExactly(fa, outputDir, fs);
      var all := Downloaded(attachments, outputDir, saved);
      forall i | 0 <= i < |attachments| && Downloadable(attachments[i], saved[i])
        ensures outputDir + "/" + DownloadName(attachments[i]) in all
      {
        if i < n {
          assert fa[i] == attachments[i] && fs[i] == saved[i];
        }
      }
      forall p | p in all ensures SavedFrom(attachments, outputDir, saved, p) {
        if p in Downloaded(fa, outputDir, fs) {
          var i :| 0 <= i < |fa| && Downloadable(fa[i], fs[i]) && p == outputDir + "/" + DownloadName(fa[i]);
          assert fa[i] == attachments[i] && fs[i] == saved[i];
        } else {
          assert Downloadable(attachments[n], saved[n]) && p == outputDir + "/" + DownloadName(attachments[n]);
        }
      }
    }
  }

  // ---------------------------------------------------------------------------
  // update_issue_state

  datatype TeamState = TeamState(id: string, name: string)

  /** A team state whose name equals the target ignoring letter case. */
  predicate NameMatches(st: TeamState, target: string) {
    Text.Lower(st.name) == Text.Lower(target)
  }

  /** The index of the first matching state, or the number of states when none matches. */
  function FirstMatch(states: seq<TeamState>, target: string): (k: nat)
    ensures k <= |states|
    ensures k < |states| ==> NameMatches(states[k], target)
    ensures forall j :: 0 <= j < k ==> !NameMatches(states[j], target)
    decreases |states|
  {
    if states == [] then 0
    else if NameMatches(states[0], target) then 0
    else 1 + FirstMatch(states[1..], target)
  }

  /** `update_issue_state`'s choice: the id the issueUpdate mutation is sent with, or None when
      it returns `{}` without a mutation: no state matches, or the first match has an empty id. */
  method UpdateIssueState(states: seq<TeamState>, target: string) returns (stateId: Option<string>)
    ensures var k := FirstMatch(states, target);
      stateId == (if k < |states| && states[k].id != "" then Some(states[k].id) else None)
  {
    var found: Option<string> := None;
    var i := 0;
    while i < |states|
      invariant 0 <= i <= |states|
      invariant forall j :: 0 <= j < i ==> !NameMatches(states[j], target)
      invariant found.None?
    {
      if NameMatches(states[i], target) {
        found := Some(states[i].id);
        break;
      }
      i := i + 1;
    }
    assert found.Some? ==> FirstMatch(states, target) == i && found == Some(states[i].id);
    assert found.None? ==> FirstMatch(states, target) == |states|;
    if found.None? || found.value == "" {
      return None;
    }
    return found;
  }

  // ---------------------------------------------------------------------------
  // format_issue_as_markdown

  const DescriptionHeading := "## Description\n"
  const NoDescription := "_No description provided_"
  const AttachmentsHeading := "## Attachments & Screenshots\n"
  const AgentsNote := "**Note for agents:** Screenshots are embedded above. You can also read them directly using the file paths shown."

  /** The metadata lines: one per present part, in the order assignee, project, team, state,
      labels; the labels line only when there are labels. */
  function MetaLines(issue: Issue): (lines: seq<string>)
    ensures |lines| == (if issue.assignee.Some? then 1 else 0) + (if issue.project.Some? then 1 else 0)
                     + (if issue.team.Some? then 1 else 0) + (if issue.state.Some? then 1 else 0)
                     + (if issue.labels != [] then 1 else 0)
  {
    (if issue.assignee.Some? then ["**Assignee:** " + issue.assignee.value.name + " (" + issue.assignee.value.email + ")"] else [])
    + (if issue.project.Some? then ["**Project:** " + issue.project.value] else [])
    + (if issue.team.Some? then ["**Team:** " + issue.team.value] else [])
    + (if issue.state.Some? then ["**State:** " + issue.state.value.name + " (" + issue.state.value.kind + ")"] else [])
    + (if issue.labels != [] then ["**Labels:** " + Text.Join(issue.labels, ", ")] else [])
  }

  /** The description, or the placeholder when it is absent or empty. */
  function DescriptionText(issue: Issue): string {
    if Text.Truthy(issue.description) then issue.description.value else NoDescription
  }

  /** The lines one attachment contributes (title defaults to "Untitled", URL to ""). */
  function AttachmentLines(a: Attachment, withDir: bool): (lines: seq<string>)
    ensures |lines| == 1 || |lines| == 3
  {
    var title := Get(a.title, "Untitled");
    var url := Get(a.url, "");
    if withDir then
      var local := "./attachments/" + FileNameFor(title, url);
      if Text.IsImageName(FileNameFor(title, url)) then
        ["### " + title + "\n", "![" + title + "](" + local + ")\n", "_Image file: `" + local + "`_\n"]
      else ["- **" + title + "**: [View file](" + local + ") | [Original](" + url + ")"]
    else ["- **" + title + "**: " + url]
  }

  function AttachmentsBody(atts: seq<Attachment>, withDir: bool): seq<string>
    decreases |atts|
  {
    if atts == [] then []
    else AttachmentsBody(atts[..|atts| - 1], withDir) + AttachmentLines(atts[|atts| - 1], withDir)
  }

  /** The title line and the URL line. */
  function HeaderLines(issue: Issue): seq<string> {
    ["# " + issue.identifier + ": " + issue.title + "\n", "**URL:** " + issue.url + "\n"]
  }

  /** The attachments section: present exactly when there are attachments. */
  function AttachmentSection(atts: seq<Attachment>, withDir: bool): (lines: seq<string>)
    ensures atts == [] <==> lines == []
    ensures atts != [] ==> lines[0] == AttachmentsHeading && lines[|lines| - 1] == AgentsNote
  {
    if atts == [] then [] else [AttachmentsHeading] + AttachmentsBody(atts, withDir) + ["", AgentsNote]
  }

  /** The whole markdown, line by line. */
  function MarkdownLines(issue: Issue, withDir: bool): (lines: seq<string>)
    ensures |lines| >= 6 && lines[..2] == HeaderLines(issue)
    ensures lines[|lines| - 1] == if issue.attachments == [] then "" else AgentsNote
    ensures issue.attachments != [] ==> AttachmentsHeading in lines
  {
    HeaderLines(issue) + MetaLines(issue) + ["", DescriptionHeading, DescriptionText(issue), ""]
    + AttachmentSection(issue.attachments, withDir)
  }

  lemma AttachmentsBodyStep(atts: seq<Attachment>, withDir: bool, i: nat)
    requires i < |atts|
    ensures AttachmentsBody(atts[..i + 1], withDir) == AttachmentsBody(atts[..i], withDir) + AttachmentLines(atts[i], withDir)
  {
    assert atts[..i + 1][..i] == atts[..i];
  }

  /** `format_issue_as_markdown`; `withDir` says whether an attachments directory was given. */
  method FormatIssueAsMarkdown(issue: Issue, withDir: bool) returns (md: string)
    ensures md == Text.Join(MarkdownLines(issue, withDir), "\n")
  {
    var lines := HeaderLines(issue) + MetaLines(issue);
    var description := NoDescription;
    if Text.Truthy(issue.description) {
      description := issue.description.value;
    }
    lines := lines + ["", DescriptionHeading, description, ""];
    var section: seq<string> := [];
    if issue.attachments != [] {
      var body: seq<string> := [];
      var i := 0;
      while i < |issue.attachments|
        invariant 0 <= i <= |issue.attachments|
        invariant body == AttachmentsBody(issue.attachments[..i], withDir)
      {
        AttachmentsBodyStep(issue.attachments, withDir, i);
        body := body + AttachmentLines(issue.attachments[i], withDir);
        i := i + 1;
      }
      assert issue.attachments[..i] == issue.attachments;
      section := [AttachmentsHeading] + body + ["", AgentsNote];
    }
    md := Text.Join(lines + section, "\n");
  }

  /** The layout: the title line and the URL line open the text, the metadata follows, then
      the description (or its placeholder) under its heading, and the attachments section
      exactly when there are attachments. */
  lemma MarkdownLayout(issue: Issue, withDir: bool)
    ensures var lines := MarkdownLines(issue, withDir);
      var m := |MetaLines(issue)|;
      && |lines| >= 6 + m
      && lines[0] == "# " + issue.identifier + ": " + issue.title + "\n"
      && lines[1] == "**URL:** " + issue.url + "\n"
      && lines[2..2 + m] == MetaLines(issue)
      && lines[3 + m] == DescriptionHeading
      && lines[4 + m] == (if Text.Truthy(issue.description) then issue.description.value else NoDescription)
      && lines[6 + m..] == AttachmentSection(issue.attachments, withDir)
  {
    var lines := MarkdownLines(issue, withDir);
    var m := |MetaLines(issue)|;
    var front := HeaderLines(issue) + MetaLines(issue);
    var middle := ["", DescriptionHeading, DescriptionText(issue), ""];
    assert lines == front + middle + AttachmentSection(issue.attachments, withDir);
    assert lines[3 + m] == middle[1] && lines[4 + m] == middle[2];
    assert lines[..2 + m] == front;
    assert lines[2..2 + m] == front[2..];
  }

  /** The labels line is the last metadata line, present exactly when there are labels, and
      holds the names joined by ", ". */
  lemma LabelsLine(issue: Issue)
    ensures issue.labels != [] ==> MetaLines(issue)[|MetaLines(issue)| - 1] == "**Labels:** " + Text.Join(issue.labels, ", ")
    ensures issue.labels == [] ==> forall k :: 0 <= k < |MetaLines(issue)| ==> !Text.StartsWith(MetaLines(issue)[k], "**Labels:** ")
  {
    if issue.labels == [] {
      var meta := MetaLines(issue);
      forall k | 0 <= k < |meta| ensures !Text.StartsWith(meta[k], "**Labels:** ") {
        assert |meta[k]| > 2 && meta[k][2] != 'L';
      }
    }
  }

  /** With an attachments directory, an attachment whose file name is an image is embedded
      inline from ./attachments/; any other becomes one link line; without the directory each
      attachment is one "- **title**: url" line. */
  lemma AttachmentRendering(a: Attachment, withDir: bool)
    ensures var title := Get(a.title, "Untitled");
      var url := Get(a.url, "");
      var name := FileNameFor(title, url);
      var local := "./attachments/" + name;
      && (withDir && Text.IsImageName(name) ==>
            |AttachmentLines(a, withDir)| == 3
            && AttachmentLines(a, withDir)[1] == "![" + title + "](" + local + ")\n")
      && (withDir && !Text.IsImageName(name) ==>
            AttachmentLines(a, withDir) == ["- **" + title + "**: [View file](" + local + ") | [Original](" + url + ")"])
      && (!withDir ==> AttachmentLines(a, withDir) == ["- **" + title + "**: " + url])
  {
  }

  /** The body has one to three lines per attachment, and exactly one each without a directory. */
  lemma {:induction false} AttachmentsBodyLength(atts: seq<Attachment>, withDir: bool)
    ensures |atts| <= |AttachmentsBody(atts, withDir)| <= 3 * |atts|
    ensures !withDir ==> |AttachmentsBody(atts, withDir)| == |atts|
    decreases |atts|
  {
    if atts != [] {
      AttachmentsBodyLength(atts[..|atts| - 1], withDir);
    }
  }
}

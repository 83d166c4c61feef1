/**
 * Pull-request URL extraction (orchestrator/workflow_manager.py, `_extract_pr_url` and
 * `_extract_pr_url_from_logs`): the first match of the pattern
 * `https://github\.com/[^/]+/[^/]+/pull/\d+` in a text, as `re.search` finds it.
 *
 * The owner and repository parts cannot contain '/', so each must run up to the next '/';
 * only the digit run is open-ended, and the greedy `\d+` takes all of it. The search is
 * therefore the leftmost match, and among matches starting there the longest one, which is
 * what `Search` is proved to return against the declarative `IsPrUrl`.
 */
module PrUrl {
  import opened Wrappers
  import Text

  const Prefix := "https://github.com/"
  const PullInfix := "/pull/"

  predicate NoSlashIn(u: string, lo: int, hi: int)
    requires 0 <= lo <= hi <= |u|
  {
    forall k :: lo <= k < hi ==> u[k] != '/'
  }

  predicate DigitsIn(u: string, lo: int, hi: int)
    requires 0 <= lo <= hi <= |u|
  {
    forall k :: lo <= k < hi ==> Text.IsDigit(u[k])
  }

  /** `lit` occurs in `s` at position `i`. */
  predicate LitAt(s: string, i: int, lit: string) {
    0 <= i && i + |lit| <= |s| && forall k :: 0 <= k < |lit| ==> s[i + k] == lit[k]
  }

  /** `u` = prefix, owner `u[19..o]`, '/', repository `u[o + 1..r]`, "/pull/", the digits `u[r + 6..]`,
      with owner, repository and number all non-empty. */
  predicate Shape(u: string, o: int, r: int) {
    && |Prefix| < o && o + 1 < r && r + |PullInfix| < |u|
    && LitAt(u, 0, Prefix)
    && NoSlashIn(u, |Prefix|, o) && u[o] == '/'
    && NoSlashIn(u, o + 1, r)
    && LitAt(u, r, PullInfix)
    && DigitsIn(u, r + |PullInfix|, |u|)
  }

  /** The whole of `u` is matched by the pull-request pattern. */
  predicate IsPrUrl(u: string) {
    exists o: int, r: int | 0 <= o < r < |u| :: Shape(u, o, r)
  }

  /** The end of the run of non-'/' characters starting at `i`. */
  function NonSlashEnd(s: string, i: nat): (j: nat)
    requires i <= |s|
    ensures i <= j <= |s|
    ensures NoSlashIn(s, i, j)
    ensures j == |s| || s[j] == '/'
    decreases |s| - i
  {
    if i == |s| || s[i] == '/' then i else NonSlashEnd(s, i + 1)
  }

  /** The end of the run of decimal digits starting at `i`. */
  function DigitEnd(s: string, i: nat): (j: nat)
    requires i <= |s|
    ensures i <= j <= |s|
    ensures DigitsIn(s, i, j)
    ensures j == |s| || !Text.IsDigit(s[j])
    decreases |s| - i
  {
    if i == |s| || !Text.IsDigit(s[i]) then i else DigitEnd(s, i + 1)
  }

  /** The one place a '/' can end a non-empty run of non-'/' characters. */
  lemma NonSlashEndUnique(s: string, i: nat, j: nat)
    requires i <= j < |s| && NoSlashIn(s, i, j) && s[j] == '/'
    ensures NonSlashEnd(s, i) == j
  {
  }

  /** The end of the greedy match starting exactly at `i`, if there is one. */
  function MatchAt(s: string, i: nat): Option<nat>
    requires i <= |s|
  {
    var a := i + |Prefix|;
    if !LitAt(s, i, Prefix) then None
    else
      var o := NonSlashEnd(s, a);
      if o == a || o == |s| then None
      else
        var r := NonSlashEnd(s, o + 1);
        if r == o + 1 || !LitAt(s, r, PullInfix) then None
        else
          var d := DigitEnd(s, r + |PullInfix|);
          if d == r + |PullInfix| then None else Some(d)
  }

  /** `Shape` read at absolute positions of `s`, for the candidate `s[i..e]`. */
  predicate ShapeAt(s: string, i: int, e: int, o: int, r: int)
    requires 0 <= i <= e <= |s|
  {
    && i + |Prefix| < o && o + 1 < r && r + |PullInfix| < e
    && LitAt(s, i, Prefix)
    && NoSlashIn(s, i + |Prefix|, o) && s[o] == '/'
    && NoSlashIn(s, o + 1, r)
    && LitAt(s, r, PullInfix)
    && DigitsIn(s, r + |PullInfix|, e)
  }

  lemma NoSlashShift(s: string, i: int, e: int, lo: int, hi: int)
    requires 0 <= i <= e <= |s| && 0 <= lo <= hi <= e - i
    ensures NoSlashIn(s[i..e], lo, hi) <==> NoSlashIn(s, i + lo, i + hi)
  {
    assert forall k :: lo <= k < hi ==> s[i..e][k] == s[i + k];
    if NoSlashIn(s, i + lo, i + hi) {
      forall k | lo <= k < hi ensures s[i..e][k] != '/' { assert s[i + k] != '/'; }
    }
    if NoSlashIn(s[i..e], lo, hi) {
      forall k | i + lo <= k < i + hi ensures s[k] != '/' { assert s[i..e][k - i] != '/'; }
    }
  }

  lemma LitShift(s: string, i: int, e: int, a: int, lit: string)
    requires 0 <= i <= e <= |s| && 0 <= a && a + |lit| <= e - i
    ensures LitAt(s[i..e], a, lit) <==> LitAt(s, i + a, lit)
  {
    forall k | 0 <= k < |lit| ensures s[i..e][a + k] == lit[k] <==> s[i + a + k] == lit[k] { }
  }

  lemma DigitsShift(s: string, i: int, e: int, lo: int)
    requires 0 <= i <= e <= |s| && 0 <= lo <= e - i
    ensures DigitsIn(s[i..e], lo, e - i) <==> DigitsIn(s, i + lo, e)
  {
    if DigitsIn(s, i + lo, e) {
      forall k | lo <= k < e - i ensures Text.IsDigit(s[i..e][k]) { assert s[i..e][k] == s[i + k]; }
    }
    if DigitsIn(s[i..e], lo, e - i) {
      forall k | i + lo <= k < e ensures Text.IsDigit(s[k]) { assert s[k] == s[i..e][k - i]; }
    }
  }

  /** A candidate has the pull-request shape exactly when its positions in `s` do. */
  lemma ShapeShift(s: string, i: int, e: int, o: int, r: int)
    requires 0 <= i <= e <= |s|
    requires i + |Prefix| < o && o + 1 < r && r + |PullInfix| < e
    ensures Shape(s[i..e], o - i, r - i) <==> ShapeAt(s, i, e, o, r)
  {
    var u := s[i..e];
    assert u[o - i] == s[o];
    LitShift(s, i, e, 0, Prefix);
    LitShift(s, i, e, r - i, PullInfix);
    NoSlashShift(s, i, e, |Prefix|, o - i);
    NoSlashShift(s, i, e, o - i + 1, r - i);
    DigitsShift(s, i, e, r - i + |PullInfix|);
  }

  /** What `MatchAt` finds is a match, and the number in it cannot be extended. */
  lemma MatchAtSound(s: string, i: nat)
    requires i <= |s| && MatchAt(s, i).Some?
    ensures var d := MatchAt(s, i).value;
      i <= d <= |s| && IsPrUrl(s[i..d]) && (d == |s| || !Text.IsDigit(s[d]))
  {
    var a := i + |Prefix|;
    var o := NonSlashEnd(s, a);
    var r := NonSlashEnd(s, o + 1);
    var d := DigitEnd(s, r + |PullInfix|);
    assert ShapeAt(s, i, d, o, r);
    ShapeShift(s, i, d, o, r);
    assert 0 <= o - i < r - i < d - i;
  }

  /** Every match starting at `i` is found by `MatchAt`, and is no longer than what it finds. */
  lemma MatchAtComplete(s: string, i: nat, e: nat)
    requires i <= e <= |s| && IsPrUrl(s[i..e])
    ensures MatchAt(s, i).Some? && e <= MatchAt(s, i).value
  {
    var u := s[i..e];
    var o, r :| 0 <= o < r < |u| && Shape(u, o, r);
    ShapeShift(s, i, e, i + o, i + r);
    assert ShapeAt(s, i, e, i + o, i + r);
    CompleteAt(s, i, e, i + o, i + r);
  }

  lemma CompleteAt(s: string, i: nat, e: nat, o: nat, r: nat)
    requires i <= e <= |s| && ShapeAt(s, i, e, o, r)
    ensures MatchAt(s, i).Some? && e <= MatchAt(s, i).value
  {
    NonSlashEndUnique(s, i + |Prefix|, o);
    assert s[r + 0] == PullInfix[0];
    NonSlashEndUnique(s, o + 1, r);
  }

  /** No match starts at a position in `[lo, hi)`. */
  predicate NoMatchFrom(s: string, lo: int, hi: int) {
    forall j, e :: lo <= j < hi && 0 <= j <= e <= |s| ==> !IsPrUrl(s[j..e])
  }

  /** `s[j..d]` is a match that no longer match starting at `j` extends. */
  predicate LongestMatch(s: string, j: int, d: int) {
    && 0 <= j <= d <= |s| && IsPrUrl(s[j..d])
    && (d == |s| || !Text.IsDigit(s[d]))
    && forall e :: d < e <= |s| ==> !IsPrUrl(s[j..e])
  }

  /** No match can start where fewer than 20 characters remain. */
  lemma NoRoom(s: string, i: nat)
    requires |s| < i + |Prefix| + 1
    ensures NoMatchFrom(s, i, |s| + 1)
  {
  }

  /** No match starts at `i` when `MatchAt` finds none there. */
  lemma NoMatchAt(s: string, i: nat)
    requires i <= |s| && MatchAt(s, i).None?
    ensures forall e :: i <= e <= |s| ==> !IsPrUrl(s[i..e])
  {
    forall e | i <= e <= |s| && IsPrUrl(s[i..e]) ensures false { MatchAtComplete(s, i, e); }
  }

  /** The match `MatchAt` finds is the longest starting at `i`. */
  lemma LongestAt(s: string, i: nat)
    requires i <= |s| && MatchAt(s, i).Some?
    ensures LongestMatch(s, i, MatchAt(s, i).value)
  {
    MatchAtSound(s, i);
    forall e | MatchAt(s, i).value < e <= |s| && IsPrUrl(s[i..e]) ensures false { MatchAtComplete(s, i, e); }
  }

  lemma NoMatchExtend(s: string, i: nat, hi: int)
    requires i < hi
    requires forall e :: i <= e <= |s| ==> !IsPrUrl(s[i..e])
    requires NoMatchFrom(s, i + 1, hi)
    ensures NoMatchFrom(s, i, hi)
  {
  }

  /** `re.search` from position `i`: the first position with a match, and the end `MatchAt`
      finds there. */
  function Search(s: string, i: nat): (m: Option<(nat, nat)>)
    requires i <= |s|
    ensures m.Some? ==> i <= m.value.0 <= |s| && MatchAt(s, m.value.0) == Some(m.value.1)
    decreases |s| - i
  {
    if |s| < i + |Prefix| + 1 then None
    else match MatchAt(s, i)
      case Some(d) => Some((i, d))
      case None => Search(s, i + 1)
  }

  /** What `Search` returns is the leftmost match, and the longest starting there; when it
      returns nothing, no part of the text matches. */
  lemma {:induction false} SearchLeftmostLongest(s: string, i: nat)
    requires i <= |s|
    ensures Search(s, i).Some? ==> LongestMatch(s, Search(s, i).value.0, Search(s, i).value.1)
    ensures Search(s, i).Some? ==> NoMatchFrom(s, i, Search(s, i).value.0)
    ensures Search(s, i).None? ==> NoMatchFrom(s, i, |s| + 1)
    decreases |s| - i
  {
    if |s| < i + |Prefix| + 1 {
      NoRoom(s, i);
    } else if MatchAt(s, i).Some? {
      LongestAt(s, i);
    } else {
      NoMatchAt(s, i);
      SearchLeftmostLongest(s, i + 1);
      if Search(s, i + 1).Some? {
        NoMatchExtend(s, i, Search(s, i + 1).value.0);
      } else {
        NoMatchExtend(s, i, |s| + 1);
      }
    }
  }

  /** `_extract_pr_url_from_logs`: the first pull-request URL in the logs. */
  function FromLogs(logs: string): (url: Option<string>)
    ensures url.Some? ==> IsPrUrl(url.value) && Text.Contains(logs, url.value)
    ensures url.None? ==> NoMatchFrom(logs, 0, |logs| + 1)
  {
    SearchLeftmostLongest(logs, 0);
    match Search(logs, 0)
    case None => None
    case Some((j, e)) =>
      Text.ContainsAt(logs, logs[j..e], j);
      Some(logs[j..e])
  }

  /** The URL found is the leftmost match in the logs, taken with all of its digits. */
  lemma FromLogsLeftmostLongest(logs: string)
    requires FromLogs(logs).Some?
    ensures exists j, d :: && LongestMatch(logs, j, d) && NoMatchFrom(logs, 0, j)
                           && FromLogs(logs) == Some(logs[j..d])
  {
    SearchLeftmostLongest(logs, 0);
    var m := Search(logs, 0).value;
    assert LongestMatch(logs, m.0, m.1) && NoMatchFrom(logs, 0, m.0) && FromLogs(logs) == Some(logs[m.0..m.1]);
  }

  /** `_extract_pr_url`: a URL in the agent's status message wins; otherwise the logs are
      searched. `message` is the message of the agent status, `logs` the container's logs. */
  function Extract(message: Option<string>, logs: string): (url: Option<string>)
    ensures url.Some? ==> IsPrUrl(url.value)
    ensures Text.Truthy(message) && FromLogs(message.value).Some? ==> url == FromLogs(message.value)
    ensures !(Text.Truthy(message) && FromLogs(message.value).Some?) ==> url == FromLogs(logs)
  {
    if Text.Truthy(message) && FromLogs(message.value).Some? then FromLogs(message.value) else FromLogs(logs)
  }
}

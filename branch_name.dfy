/**
 * Branch names for workflows (orchestrator/workflow_manager.py, `_generate_branch_name`):
 * `feature/<identifier>-<slug>`, where the slug is the lowercased title with everything but
 * letters, digits, spaces and '-' dropped, its words joined by '-', cut to 50 characters.
 */
module BranchName {
  import Text

  const MaxSlug := 50

  /** The characters the sanitising step keeps. */
  predicate Kept(c: char) {
    Text.IsAlnum(c) || c == ' ' || c == '-'
  }

  /** The characters a slug may contain. */
  predicate SlugChar(c: char) {
    Text.IsDigit(c) || Text.IsLowerLetter(c) || c == '-'
  }

  /** `''.join(c if c.isalnum() or c in (' ', '-') else '' for c in s)`. */
  function Sanitize(s: string): (r: string)
    ensures |r| <= |s|
    ensures forall i :: 0 <= i < |r| ==> Kept(r[i])
    ensures forall i :: 0 <= i < |s| && Kept(s[i]) ==> s[i] in r
    decreases |s|
  {
    if s == [] then []
    else if Kept(s[0]) then [s[0]] + Sanitize(s[1..])
    else Sanitize(s[1..])
  }

  /** Sanitising is a filter: it works character by character, keeping each kept character once,
      in place, and dropping every other one. */
  lemma {:induction false} SanitizeFilters(a: string, b: string, c: char)
    ensures Sanitize(a + b) == Sanitize(a) + Sanitize(b)
    ensures Sanitize([c]) == if Kept(c) then [c] else []
    decreases |a|
  {
    if a == [] {
      assert a + b == b;
    } else {
      assert (a + b)[0] == a[0];
      assert (a + b)[1..] == a[1..] + b;
      SanitizeFilters(a[1..], b, c);
      if Kept(a[0]) {
        assert Sanitize(a + b) == [a[0]] + (Sanitize(a[1..]) + Sanitize(b));
      }
    }
  }

  /** The longest prefix of `s` without whitespace. */
  function FirstWord(s: string): (w: string)
    ensures |w| <= |s| && w == s[..|w|]
    ensures forall i :: 0 <= i < |w| ==> !Text.IsSpace(w[i])
    ensures |w| < |s| ==> Text.IsSpace(s[|w|])
    decreases |s|
  {
    if s == [] || Text.IsSpace(s[0]) then [] else [s[0]] + FirstWord(s[1..])
  }

  /** `s.split()`, splitting at whitespace and dropping the empty pieces (of the words, the
      contract says only that none is empty). */
  function SplitWords(s: string): (ws: seq<string>)
    ensures forall k :: 0 <= k < |ws| ==> ws[k] != []
    decreases |s|
  {
    if s == [] then []
    else if Text.IsSpace(s[0]) then SplitWords(s[1..])
    else
      var w := FirstWord(s);
      [w] + SplitWords(s[|w|..])
  }

  /** `'-'.join(s.split())[:50]` on the sanitised, lowercased title. */
  function Slug(title: string): string {
    Text.Take(Text.Join(SplitWords(Sanitize(Text.Lower(title))), "-"), MaxSlug)
  }

  /** `_generate_branch_name`. */
  function Generate(identifier: string, title: string): (name: string)
    ensures name == "feature/" + identifier + "-" + Slug(title)
    ensures |name| <= |"feature/"| + |identifier| + 1 + MaxSlug
  {
    "feature/" + identifier + "-" + Slug(title)
  }

  // ---------------------------------------------------------------------------
  // A one-pass reference: copy non-space characters, and between two words emit one '-'
  // for the whole run of whitespace; whitespace before the first word and after the last
  // emits nothing. `started`: a word has been copied; `pending`: whitespace since then.

  function Collapse(s: string, started: bool, pending: bool): string
    decreases |s|
  {
    if s == [] then []
    else if Text.IsSpace(s[0]) then Collapse(s[1..], started, started)
    else (if pending then "-" else "") + [s[0]] + Collapse(s[1..], true, false)
  }

  /** A word is copied whole, preceded by '-' when whitespace was pending. */
  lemma {:induction false} CollapseWord(w: string, rest: string, started: bool, pending: bool)
    requires w != [] && forall i :: 0 <= i < |w| ==> !Text.IsSpace(w[i])
    ensures Collapse(w + rest, started, pending) == (if pending then "-" else "") + w + Collapse(rest, true, false)
    decreases |w|
  {
    var head := if pending then "-" else "";
    assert (w + rest)[0] == w[0];
    assert (w + rest)[1..] == w[1..] + rest;
    if |w| > 1 {
      CollapseWord(w[1..], rest, true, false);
      assert [w[0]] + w[1..] == w;
      assert head + [w[0]] + ([] + w[1..] + Collapse(rest, true, false)) == head + w + Collapse(rest, true, false);
    } else {
      assert w[1..] + rest == rest;
      assert [w[0]] == w;
    }
  }

  /** `s` begins with its first word, followed by whitespace or nothing. */
  lemma FirstWordSplit(s: string)
    ensures s == FirstWord(s) + s[|FirstWord(s)|..]
  {
  }

  /** After a word, `Collapse` emits '-' and the rest joined, or nothing when no word is left. */
  lemma {:induction false} CollapseAfterWord(s: string)
    ensures Collapse(s, true, true) == if SplitWords(s) == [] then [] else "-" + Text.Join(SplitWords(s), "-")
    decreases |s|
  {
    if s == [] {
    } else if Text.IsSpace(s[0]) {
      CollapseAfterWord(s[1..]);
    } else {
      var w := FirstWord(s);
      var rest := s[|w|..];
      var ws := SplitWords(rest);
      FirstWordSplit(s);
      CollapseWord(w, rest, true, true);
      CollapseAfterWord(rest);
      CollapseAfterSpace(rest);
      assert SplitWords(s) == [w] + ws;
      JoinCons(w, ws);
    }
  }

  /** Whitespace right after a word: the same as pending whitespace. */
  lemma CollapseAfterSpace(s: string)
    requires s == [] || Text.IsSpace(s[0])
    ensures Collapse(s, true, false) == Collapse(s, true, true)
  {
  }

  lemma JoinCons(w: string, ws: seq<string>)
    ensures Text.Join([w] + ws, "-") == if ws == [] then w else w + "-" + Text.Join(ws, "-")
  {
    if ws != [] {
      assert ([w] + ws)[1..] == ws;
    }
  }

  /** Joining the words with '-' collapses every run of whitespace between two words to one
      '-' and drops leading and trailing whitespace. */
  lemma {:induction false} JoinWordsIsCollapse(s: string)
    ensures Text.Join(SplitWords(s), "-") == Collapse(s, false, false)
    decreases |s|
  {
    if s == [] {
    } else if Text.IsSpace(s[0]) {
      JoinWordsIsCollapse(s[1..]);
    } else {
      var w := FirstWord(s);
      var rest := s[|w|..];
      FirstWordSplit(s);
      CollapseWord(w, rest, false, false);
      CollapseAfterWord(rest);
      CollapseAfterSpace(rest);
      JoinCons(w, SplitWords(rest));
    }
  }

  /** `Collapse` emits only '-' and characters of its input that are not whitespace. */
  lemma {:induction false} CollapseChars(s: string, started: bool, pending: bool)
    requires forall i :: 0 <= i < |s| && !Text.IsSpace(s[i]) ==> SlugChar(s[i])
    ensures forall i :: 0 <= i < |Collapse(s, started, pending)| ==> SlugChar(Collapse(s, started, pending)[i])
    decreases |s|
  {
    if s != [] {
      if Text.IsSpace(s[0]) {
        CollapseChars(s[1..], started, started);
      } else {
        CollapseChars(s[1..], true, false);
        var tail := Collapse(s[1..], true, false);
        var head := (if pending then "-" else "") + [s[0]];
        assert Collapse(s, started, pending) == head + tail;
        assert forall i :: 0 <= i < |head| ==> SlugChar(head[i]);
      }
    }
  }

  /** The lowercased, sanitised title holds only slug characters and spaces. */
  lemma SanitizedChars(title: string)
    ensures forall i :: 0 <= i < |Sanitize(Text.Lower(title))| && !Text.IsSpace(Sanitize(Text.Lower(title))[i]) ==>
      SlugChar(Sanitize(Text.Lower(title))[i])
  {
    var l := Text.Lower(title);
    assert forall i :: 0 <= i < |l| ==> !Text.IsUpper(l[i]);
    SanitizeKeepsLower(l);
  }

  lemma {:induction false} SanitizeKeepsLower(s: string)
    requires forall i :: 0 <= i < |s| ==> !Text.IsUpper(s[i])
    ensures forall i :: 0 <= i < |Sanitize(s)| ==> !Text.IsUpper(Sanitize(s)[i])
    decreases |s|
  {
    if s != [] {
      SanitizeKeepsLower(s[1..]);
    }
  }

  /** The slug is at most 50 characters of lowercase letters, digits and '-' (so no
      whitespace), and before the cut it is the title's words joined by single dashes. */
  lemma SlugProperties(title: string)
    ensures |Slug(title)| <= MaxSlug
    ensures forall i :: 0 <= i < |Slug(title)| ==> SlugChar(Slug(title)[i]) && !Text.IsSpace(Slug(title)[i])
    ensures Slug(title) == Text.Take(Collapse(Sanitize(Text.Lower(title)), false, false), MaxSlug)
  {
    var t := Sanitize(Text.Lower(title));
    SanitizedChars(title);
    JoinWordsIsCollapse(t);
    CollapseChars(t, false, false);
    var full := Collapse(t, false, false);
    var cut := Slug(title);
    assert cut == full[..|cut|];
    assert forall i :: 0 <= i < |cut| ==> cut[i] == full[i];
  }
}

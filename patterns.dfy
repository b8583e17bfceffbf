/**
 * The regular expressions of cmd/gmail-blade/main.go:164-169, each written out
 * as the matcher it amounts to under Go's leftmost-first semantics.
 */
module Patterns {
  import opened Wrappers
  import opened Text

  /** `\s` in Go's regular expressions: `[\t\n\f\r ]`. */
  predicate IsRegexpSpace(c: char) {
    c == '\t' || c == '\n' || c == '\U{C}' || c == '\r' || c == ' '
  }

  /**
   * `(?i)` comparison against a lower-case ASCII letter: its upper-case form
   * matches too, and Go's simple case folding adds U+017F for `s` and U+212A
   * for `k`.
   */
  predicate FoldsTo(c: char, lower: char) {
    || c == lower
    || ('a' <= lower <= 'z' && c as int == lower as int - 32)
    || (lower == 's' && c == '\U{17F}')
    || (lower == 'k' && c == '\U{212A}')
  }

  /** `word` matches case-insensitively at index `i` of `s`. */
  predicate WordAt(s: string, i: nat, word: string) {
    i + |word| <= |s| && forall k :: 0 <= k < |word| ==> FoldsTo(s[i + k], word[k])
  }

  /** Length of the run of `\s` characters starting at index `i`. */
  function SpaceRun(s: string, i: nat): (n: nat)
    requires i <= |s|
    ensures i + n <= |s|
    ensures forall k :: i <= k < i + n ==> IsRegexpSpace(s[k])
    ensures i + n == |s| || !IsRegexpSpace(s[i + n])
    decreases |s| - i
  {
    if i < |s| && IsRegexpSpace(s[i]) then 1 + SpaceRun(s, i + 1) else 0
  }

  /**
   * `words[0]\s+words[1]\s+...` matches at index `i`. Each word starts with a
   * letter, which is never `\s`, so every `\s+` takes the whole run of spaces.
   */
  predicate WordsAt(s: string, i: nat, words: seq<string>)
    decreases |words|
  {
    && |words| > 0
    && WordAt(s, i, words[0])
    && (|words| == 1 ||
        var j := i + |words[0]|;
        SpaceRun(s, j) > 0 && WordsAt(s, j + SpaceRun(s, j), words[1..]))
  }

  /** MatchString of the unanchored pattern `(?i)words[0]\s+words[1]...`. */
  predicate MatchesWords(s: string, words: seq<string>) {
    exists i: nat | i <= |s| :: WordsAt(s, i, words)
  }

  /** githubPullRequestRegexp: `(?i)github\s+pull\s+request`. */
  predicate RequestsPullRequest(s: string) {
    MatchesWords(s, ["github", "pull", "request"])
  }

  /** githubReviewRegexp: `(?i)github\s+review`. */
  predicate RequestsReview(s: string) {
    MatchesWords(s, ["github", "review"])
  }

  /** The capture of `<lit>([^"]*)"` when the match starts at index `i`. */
  function QuotedAt(s: string, lit: string, i: nat): Option<string> {
    if OccursAt(s, lit, i) && '"' in s[i + |lit|..] then
      var rest := s[i + |lit|..];
      Some(rest[..IndexOf(rest, '"')])
    else
      None
  }

  /** A capture at `i` is `"`-free and sits between `lit` and a closing `"`. */
  lemma QuotedAtSound(s: string, lit: string, i: nat)
    requires QuotedAt(s, lit, i).Some?
    ensures var q := QuotedAt(s, lit, i).value;
      '"' !in q && OccursAt(s, lit + q + "\"", i)
  {
    var rest := s[i + |lit|..];
    var n := IndexOf(rest, '"');
    var q := rest[..n];
    var w := lit + q + "\"";
    assert i + |w| <= |s|;
    forall k | 0 <= k < |w|
      ensures s[i..i + |w|][k] == w[k]
    {
      if k < |lit| {
        assert s[i..i + |lit|] == lit;
        assert s[i + k] == s[i..i + |lit|][k];
      } else if k < |lit| + n {
        assert s[i + k] == rest[k - |lit|];
      } else {
        assert s[i + k] == rest[n];
      }
    }
    assert s[i..i + |w|] == w;
  }

  /** FindStringSubmatch of `<lit>([^"]*)"` from index `i` on: the leftmost match's capture. */
  function FirstQuoted(s: string, lit: string, i: nat): (r: Option<string>)
    decreases |s| - i
  {
    if i > |s| then None
    else if QuotedAt(s, lit, i).Some? then QuotedAt(s, lit, i)
    else FirstQuoted(s, lit, i + 1)
  }

  /** The leftmost match from `i` on starts at `j` and captures `q`. */
  predicate LeftmostQuotedAt(s: string, lit: string, i: nat, j: nat, q: string) {
    && i <= j <= |s|
    && OccursAt(s, lit + q + "\"", j) && QuotedAt(s, lit, j) == Some(q)
    && forall k: nat :: i <= k < j ==> QuotedAt(s, lit, k).None?
  }

  /**
   * A capture is `"`-free, its match lies in the text, and no match starts
   * earlier.
   */
  lemma {:induction false} FirstQuotedSound(s: string, lit: string, i: nat)
    requires FirstQuoted(s, lit, i).Some?
    ensures var q := FirstQuoted(s, lit, i).value;
      '"' !in q && exists j: nat :: LeftmostQuotedAt(s, lit, i, j, q)
    decreases |s| - i
  {
    var q := FirstQuoted(s, lit, i).value;
    if QuotedAt(s, lit, i).Some? {
      QuotedAtSound(s, lit, i);
      assert LeftmostQuotedAt(s, lit, i, i, q);
    } else {
      FirstQuotedSound(s, lit, i + 1);
      var j: nat :| LeftmostQuotedAt(s, lit, i + 1, j, q);
      assert LeftmostQuotedAt(s, lit, i, j, q);
    }
  }

  /** No match anywhere: the pattern does not match. */
  lemma {:induction false} FirstQuotedNone(s: string, lit: string, i: nat)
    requires forall k: nat :: i <= k <= |s| ==> QuotedAt(s, lit, k).None?
    ensures FirstQuoted(s, lit, i) == None
    decreases |s| - i
  {
    if i <= |s| {
      FirstQuotedNone(s, lit, i + 1);
    }
  }

  /** A match at `k` is found: the leftmost match starts at `k` or before. */
  lemma {:induction false} FirstQuotedFinds(s: string, lit: string, i: nat, k: nat)
    requires i <= k <= |s| && QuotedAt(s, lit, k).Some?
    ensures FirstQuoted(s, lit, i).Some?
    ensures exists j: nat :: i <= j <= k && QuotedAt(s, lit, j) == FirstQuoted(s, lit, i)
    decreases k - i
  {
    if QuotedAt(s, lit, i).None? {
      FirstQuotedFinds(s, lit, i + 1, k);
    }
  }

  /** The pattern matches from `i` on exactly when a match starts at some index from `i` on. */
  lemma FirstQuotedSomeIff(s: string, lit: string, i: nat)
    ensures FirstQuoted(s, lit, i).Some? <==> exists k: nat :: i <= k <= |s| && QuotedAt(s, lit, k).Some?
  {
    if FirstQuoted(s, lit, i).Some? {
      FirstQuotedSound(s, lit, i);
      var j: nat :| LeftmostQuotedAt(s, lit, i, j, FirstQuoted(s, lit, i).value);
      assert QuotedAt(s, lit, j).Some?;
    }
    if exists k: nat :: i <= k <= |s| && QuotedAt(s, lit, k).Some? {
      var k: nat :| i <= k <= |s| && QuotedAt(s, lit, k).Some?;
      FirstQuotedFinds(s, lit, i, k);
    }
  }

  /** labelRegexp: `label "([^"]*)"`. */
  function LabelName(action: string): Option<string> {
    FirstQuoted(action, "label \"", 0)
  }

  /** moveToRegexp: `move to "([^"]*)"`. */
  function MoveToName(action: string): Option<string> {
    FirstQuoted(action, "move to \"", 0)
  }

  /** Whatever follows a quoted name, a pattern that starts the text captures exactly that name. */
  lemma QuotedRoundTrip(lit: string, name: string, rest: string)
    requires '"' !in name
    ensures FirstQuoted(lit + name + "\"" + rest, lit, 0) == Some(name)
  {
    var s := lit + name + "\"" + rest;
    assert s[..|lit|] == lit;
    var after := s[|lit|..];
    assert after == name + "\"" + rest;
    IndexOfJoined(name, '"', rest);
    assert after[..|name|] == name;
  }

  /** `label "X"` names the label X. */
  lemma LabelRoundTrip(name: string)
    requires '"' !in name
    ensures LabelName("label \"" + name + "\"") == Some(name)
  {
    QuotedRoundTrip("label \"", name, "");
    assert "label \"" + name + "\"" + "" == "label \"" + name + "\"";
  }

  /** `move to "X"` names the mailbox X. */
  lemma MoveToRoundTrip(name: string)
    requires '"' !in name
    ensures MoveToName("move to \"" + name + "\"") == Some(name)
  {
    QuotedRoundTrip("move to \"", name, "");
    assert "move to \"" + name + "\"" + "" == "move to \"" + name + "\"";
  }
}

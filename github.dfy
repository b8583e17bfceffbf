/**
 * The GitHub pull request a notification mail refers to
 * (cmd/gmail-blade/github.go:16-50, 74): its environment form, the URL
 * matcher that finds it in a mail body, and the key it is cached under.
 */
module GitHub {
  import opened Wrappers
  import opened Text
  import opened Errors
  import opened Expr

  /** Go's `int` on 64-bit platforms, the range strconv.Atoi accepts. */
  const MaxInt: nat := 0x7FFF_FFFF_FFFF_FFFF

  /** The name prefetched pull request data goes under (main.go's prefetchGitHubPullRequestKey). */
  const PrefetchKey: string := "githubPullRequest"

  /** githubPullRequest */
  datatype PullRequest = PullRequest(owner: string, repo: string, number: nat, author: string)

  /** What the notification URL names: owner, repository and number. */
  datatype Ref = Ref(owner: string, repo: string, number: nat)

  /** The `githubPullRequest` namespace a condition sees (githubPullRequest.Env). */
  function Env(pr: PullRequest): (env: map<string, Value>)
    ensures env.Keys == {"owner", "repo", "number", "author"}
  {
    map["owner" := Text(pr.owner), "repo" := Text(pr.repo), "number" := Number(pr.number), "author" := Text(pr.author)]
  }

  /** Reads a pull request back from its environment form. */
  function FromEnv(env: map<string, Value>): Option<PullRequest> {
    if && "owner" in env && env["owner"].Text?
       && "repo" in env && env["repo"].Text?
       && "number" in env && env["number"].Number? && env["number"].n >= 0
       && "author" in env && env["author"].Text?
    then Some(PullRequest(env["owner"].s, env["repo"].s, env["number"].n, env["author"].s))
    else None
  }

  /** A condition sees every field of the pull request, under its own name. */
  lemma EnvRoundTrip(pr: PullRequest)
    ensures FromEnv(Env(pr)) == Some(pr)
  {
  }

  // ---------------------------------------------------------------- the URL matcher

  const UrlPrefix: string := "https://github.com/"

  /** The submatches of githubPullRequestURLRegex: owner, repository and the digits of the number. */
  datatype UrlMatch = UrlMatch(owner: string, repo: string, digits: string)

  const PullInfix: string := "/pull/"

  /** The text a match covers: the prefix, then the owner part. */
  function UrlText(m: UrlMatch): string {
    UrlPrefix + OwnerTail(m)
  }

  /** `owner/`, then the repository part. */
  function OwnerTail(m: UrlMatch): string {
    m.owner + ("/" + RepoText(RepoPart(m)))
  }

  /** The repository and number submatches, as the part of the matcher after the owner yields them. */
  datatype RepoMatch = RepoMatch(repo: string, digits: string)

  function RepoPart(m: UrlMatch): RepoMatch {
    RepoMatch(m.repo, m.digits)
  }

  /** `repo/pull/digits` */
  function RepoText(r: RepoMatch): string {
    r.repo + (PullInfix + r.digits)
  }

  /** The notification URL of a pull request. */
  function PullRequestUrl(r: Ref): string {
    UrlText(UrlMatch(r.owner, r.repo, NatToDecimal(r.number)))
  }

  /** Length of the run of characters other than `c` from index `i`: what `[^c]+` takes greedily. */
  function RunWithout(s: string, i: nat, c: char): (n: nat)
    requires i <= |s|
    ensures i + n <= |s|
    decreases |s| - i
  {
    if i < |s| && s[i] != c then 1 + RunWithout(s, i + 1, c) else 0
  }

  /** The run holds no `c` and ends at the text's end or at a `c`. */
  lemma {:induction false} RunWithoutSpan(s: string, i: nat, c: char)
    requires i <= |s|
    ensures var n := RunWithout(s, i, c);
      && (forall k :: i <= k < i + n ==> s[k] != c)
      && (i + n == |s| || s[i + n] == c)
    decreases |s| - i
  {
    if i < |s| && s[i] != c {
      RunWithoutSpan(s, i + 1, c);
    }
  }

  /** Length of the run of decimal digits from index `i`: what `\d+` takes greedily. */
  function DigitRun(s: string, i: nat): (n: nat)
    requires i <= |s|
    ensures i + n <= |s|
    decreases |s| - i
  {
    if i < |s| && IsDigit(s[i]) then 1 + DigitRun(s, i + 1) else 0
  }

  /** The run holds only digits and ends at the text's end or at a non-digit. */
  lemma {:induction false} DigitRunSpan(s: string, i: nat)
    requires i <= |s|
    ensures var n := DigitRun(s, i);
      && (forall k :: i <= k < i + n ==> IsDigit(s[k]))
      && (i + n == |s| || !IsDigit(s[i + n]))
    decreases |s| - i
  {
    if i < |s| && IsDigit(s[i]) {
      DigitRunSpan(s, i + 1);
    }
  }

  /**
   * The match of `https://github\.com/([^/]+)/([^/]+)/pull/(\d+)` starting at
   * index `i`. A greedy `[^/]+` must be followed by `/`, so it only ever
   * takes the whole run of non-slash characters; `\d+` takes the whole run
   * of digits.
   */
  function UrlAt(s: string, i: nat): Option<UrlMatch> {
    if OccursAt(s, UrlPrefix, i) then OwnerAt(s, i + |UrlPrefix|) else None
  }

  /** `([^/]+)/` from index `a`, then the rest of the match. */
  function OwnerAt(s: string, a: nat): Option<UrlMatch>
    requires a <= |s|
  {
    var n1 := RunWithout(s, a, '/');
    if n1 == 0 || a + n1 == |s| then None
    else match RepoAt(s, a + n1 + 1)
      case None => None
      case Some(r) => Some(UrlMatch(s[a..a + n1], r.repo, r.digits))
  }

  /** `([^/]+)/pull/` from index `b`, then the number. */
  function RepoAt(s: string, b: nat): Option<RepoMatch>
    requires b <= |s|
  {
    var n2 := RunWithout(s, b, '/');
    if n2 == 0 || !OccursAt(s, PullInfix, b + n2) then None
    else match NumberAt(s, b + n2 + |PullInfix|)
      case None => None
      case Some(d) => Some(RepoMatch(s[b..b + n2], d))
  }

  /** `(\d+)` from index `c`: the digits. */
  function NumberAt(s: string, c: nat): Option<string>
    requires c <= |s|
  {
    var n3 := DigitRun(s, c);
    if n3 == 0 then None else Some(s[c..c + n3])
  }

  /** The leftmost match from index `i` on (FindStringSubmatch). */
  function FirstUrl(s: string, i: nat): Option<UrlMatch>
    decreases |s| - i
  {
    if i > |s| then None
    else if UrlAt(s, i).Some? then UrlAt(s, i)
    else FirstUrl(s, i + 1)
  }

  /** githubPullRequestURLRegex.MatchString */
  predicate HasPullRequestUrl(body: string) {
    FirstUrl(body, 0).Some?
  }

  /** A match's repository is non-empty and slash-free, its number a non-empty run of digits. */
  predicate RepoShaped(r: RepoMatch) {
    r.repo != [] && '/' !in r.repo && r.digits != [] && AllDigits(r.digits)
  }

  /** A match's owner is non-empty and slash-free, and so is the rest. */
  predicate Shaped(m: UrlMatch) {
    m.owner != [] && '/' !in m.owner && RepoShaped(RepoPart(m))
  }

  /** Owner and repository are non-empty and slash-free, the number fits an `int`. */
  predicate WellFormed(r: Ref) {
    r.owner != [] && '/' !in r.owner && r.repo != [] && '/' !in r.repo && r.number <= MaxInt
  }

  /**
   * parseGitHubNotification: the first pull request URL of the body, or the
   * error for a body without one or for a number beyond Go's `int`.
   */
  function ParseNotification(body: string): Result<Ref, Error> {
    match FirstUrl(body, 0)
    case None => Failure(New("could not find GitHub pull request URL in email"))
    case Some(m) =>
      assert AllDigits(m.digits) by { UrlAtFacts(body, FirstUrlAt(body, 0)); }
      var n := DecimalValue(m.digits);
      if n > MaxInt then
        Failure(New("parse pull request number " + Quote(m.digits) + ": strconv.Atoi: parsing "
                    + Quote(m.digits) + ": value out of range"))
      else Success(Ref(m.owner, m.repo, n))
  }

  // ---------------------------------------------------------------- matcher lemmas

  /** A number match at `c` is a non-empty run of digits there. */
  lemma NumberAtFacts(s: string, c: nat)
    requires c <= |s| && NumberAt(s, c).Some?
    ensures var d := NumberAt(s, c).value;
      d != [] && AllDigits(d) && OccursAt(s, d, c)
  {
    DigitRunSpan(s, c);
    var d := NumberAt(s, c).value;
    assert forall k :: 0 <= k < |d| ==> d[k] == s[c + k];
  }

  /** The characters a run covers are free of the separator. */
  lemma RunIsFree(s: string, a: nat, c: char)
    requires a <= |s|
    ensures c !in s[a..a + RunWithout(s, a, c)]
  {
    RunWithoutSpan(s, a, c);
    var w := s[a..a + RunWithout(s, a, c)];
    assert forall k :: 0 <= k < |w| ==> w[k] == s[a + k];
  }

  /** A repository match at `b` has a non-empty slash-free repository and a digit run. */
  lemma RepoAtShape(s: string, b: nat)
    requires b <= |s| && RepoAt(s, b).Some?
    ensures RepoShaped(RepoAt(s, b).value)
  {
    var n2 := RunWithout(s, b, '/');
    NumberAtFacts(s, b + n2 + |PullInfix|);
    RunIsFree(s, b, '/');
  }

  /** A repository match at `b` covers its text there. */
  lemma RepoAtCovers(s: string, b: nat)
    requires b <= |s| && RepoAt(s, b).Some?
    ensures OccursAt(s, RepoText(RepoAt(s, b).value), b)
  {
    var n2 := RunWithout(s, b, '/');
    var repo := s[b..b + n2];
    var c := b + n2 + |PullInfix|;
    NumberAtFacts(s, c);
    var d := NumberAt(s, c).value;
    assert RepoAt(s, b).value == RepoMatch(repo, d);
    OccursAtConcat(s, PullInfix, d, b + n2);
    assert OccursAt(s, repo, b);
    OccursAtConcat(s, repo, PullInfix + d, b);
  }

  /** An owner match at `a` has the shape of the URL. */
  lemma OwnerAtShape(s: string, a: nat)
    requires a <= |s| && OwnerAt(s, a).Some?
    ensures Shaped(OwnerAt(s, a).value)
  {
    var n1 := RunWithout(s, a, '/');
    var b := a + n1 + 1;
    RepoAtShape(s, b);
    RunIsFree(s, a, '/');
    assert RepoPart(OwnerAt(s, a).value) == RepoAt(s, b).value;
  }

  /** An owner match at `a` covers its text there. */
  lemma OwnerAtCovers(s: string, a: nat)
    requires a <= |s| && OwnerAt(s, a).Some?
    ensures OccursAt(s, OwnerTail(OwnerAt(s, a).value), a)
  {
    var n1 := RunWithout(s, a, '/');
    var owner := s[a..a + n1];
    var b := a + n1 + 1;
    RepoAtCovers(s, b);
    var r := RepoAt(s, b).value;
    assert RepoPart(OwnerAt(s, a).value) == r;
    assert OwnerAt(s, a).value.owner == owner;
    RunWithoutSpan(s, a, '/');
    assert OccursAt(s, "/", a + n1) by { assert s[a + n1..a + n1 + 1] == [s[a + n1]]; }
    OccursAtConcat(s, "/", RepoText(r), a + n1);
    assert OccursAt(s, owner, a);
    OccursAtConcat(s, owner, "/" + RepoText(r), a);
  }

  lemma OwnerAtFacts(s: string, a: nat)
    requires a <= |s| && OwnerAt(s, a).Some?
    ensures var m := OwnerAt(s, a).value;
      Shaped(m) && OccursAt(s, OwnerTail(m), a)
  {
    OwnerAtShape(s, a);
    OwnerAtCovers(s, a);
  }

  /** A match at `i` has the shape of the URL and covers its text there. */
  lemma UrlAtFacts(s: string, i: nat)
    requires UrlAt(s, i).Some?
    ensures var m := UrlAt(s, i).value;
      Shaped(m) && OccursAt(s, UrlText(m), i)
  {
    var m := UrlAt(s, i).value;
    OwnerAtFacts(s, i + |UrlPrefix|);
    OccursAtConcat(s, UrlPrefix, OwnerTail(m), i);
  }

  /** FirstUrl's match is the one at some index with no match before it. */
  function FirstUrlAt(s: string, i: nat): (j: nat)
    requires FirstUrl(s, i).Some?
    ensures i <= j <= |s| && UrlAt(s, j) == FirstUrl(s, i)
    decreases |s| - i
  {
    if UrlAt(s, i).Some? then i else FirstUrlAt(s, i + 1)
  }

  /** No match starts before the leftmost one. */
  lemma {:induction false} FirstUrlIsLeftmost(s: string, i: nat, k: nat)
    requires FirstUrl(s, i).Some?
    requires i <= k < FirstUrlAt(s, i)
    ensures UrlAt(s, k).None?
    decreases |s| - i
  {
    if k > i {
      FirstUrlIsLeftmost(s, i + 1, k);
    }
  }

  /** No match anywhere from `i` on: FirstUrl finds nothing. */
  lemma {:induction false} FirstUrlNone(s: string, i: nat)
    requires forall k: nat :: i <= k <= |s| ==> UrlAt(s, k).None?
    ensures FirstUrl(s, i) == None
    decreases |s| - i
  {
    if i <= |s| {
      FirstUrlNone(s, i + 1);
    }
  }

  /** A match at `k` is found: the leftmost match starts at `k` or before. */
  lemma {:induction false} FirstUrlFinds(s: string, i: nat, k: nat)
    requires i <= k <= |s| && UrlAt(s, k).Some?
    ensures FirstUrl(s, i).Some? && FirstUrlAt(s, i) <= k
    decreases k - i
  {
    if UrlAt(s, i).None? {
      FirstUrlFinds(s, i + 1, k);
    }
  }

  /** The pattern matches the body exactly when a match starts at some index of it. */
  lemma HasPullRequestUrlIff(body: string)
    ensures HasPullRequestUrl(body) <==> exists k: nat :: k <= |body| && UrlAt(body, k).Some?
  {
    if HasPullRequestUrl(body) {
      var j := FirstUrlAt(body, 0);
      assert UrlAt(body, j).Some?;
    }
    if exists k: nat :: k <= |body| && UrlAt(body, k).Some? {
      var k: nat :| k <= |body| && UrlAt(body, k).Some?;
      FirstUrlFinds(body, 0, k);
    }
  }

  /** The greedy run stops exactly where a separator-free word followed by the separator ends. */
  lemma RunWithoutWord(s: string, i: nat, c: char, w: string)
    requires OccursAt(s, w, i) && c !in w
    requires i + |w| == |s| || s[i + |w|] == c
    ensures RunWithout(s, i, c) == |w|
  {
    RunWithoutSpan(s, i, c);
    forall k | i <= k < i + |w|
      ensures s[k] != c
    {
      assert s[k] == w[k - i];
    }
  }

  lemma DigitRunWord(s: string, i: nat, w: string)
    requires OccursAt(s, w, i) && AllDigits(w)
    requires i + |w| == |s| || !IsDigit(s[i + |w|])
    ensures DigitRun(s, i) == |w|
  {
    DigitRunSpan(s, i);
    forall k | i <= k < i + |w|
      ensures IsDigit(s[k])
    {
      assert s[k] == w[k - i];
    }
  }

  /** An occurrence of `u + (v + w)` is one of `u`, `v` and `w` side by side. */
  lemma OccursAtSplit3(s: string, u: string, v: string, w: string, i: nat)
    requires OccursAt(s, u + (v + w), i)
    ensures OccursAt(s, u, i) && OccursAt(s, v, i + |u|) && OccursAt(s, w, i + |u| + |v|)
  {
    OccursAtConcat(s, u, v + w, i);
    OccursAtConcat(s, v, w, i + |u|);
  }

  lemma OccursAtHead(s: string, w: string, i: nat)
    requires OccursAt(s, w, i) && w != []
    ensures s[i] == w[0]
  {
    assert s[i..i + |w|][0] == w[0];
  }

  /** No digit follows index `j`: where a greedy `\d+` ending at `j` stops. */
  predicate DigitsEndAt(s: string, j: nat) {
    j == |s| || (j < |s| && !IsDigit(s[j]))
  }

  /** A digit run that no digit follows is the number match there. */
  lemma NumberAtWord(s: string, c: nat, digits: string)
    requires OccursAt(s, digits, c) && digits != [] && AllDigits(digits)
    requires DigitsEndAt(s, c + |digits|)
    ensures NumberAt(s, c) == Some(digits)
  {
    DigitRunWord(s, c, digits);
    OccursAtSlice(s, digits, c);
  }

  /** A slash-free word followed by `/` is the whole run the greedy `[^/]+` takes. */
  lemma SlashRunWord(s: string, i: nat, w: string)
    requires OccursAt(s, w, i) && '/' !in w
    requires i + |w| < |s| && s[i + |w|] == '/'
    ensures RunWithout(s, i, '/') == |w|
  {
    RunWithoutWord(s, i, '/', w);
  }

  /** A repository word, `/pull/` and a digit run that ends the digits, side by side at `b`, are the repository match there. */
  lemma RepoAtParts(s: string, b: nat, r: RepoMatch)
    requires RepoShaped(r)
    requires OccursAt(s, r.repo, b) && OccursAt(s, PullInfix, b + |r.repo|)
    requires OccursAt(s, r.digits, b + |r.repo| + |PullInfix|)
    requires DigitsEndAt(s, b + |r.repo| + |PullInfix| + |r.digits|)
    ensures RepoAt(s, b) == Some(r)
  {
    OccursAtHead(s, PullInfix, b + |r.repo|);
    SlashRunWord(s, b, r.repo);
    NumberAtWord(s, b + |r.repo| + |PullInfix|, r.digits);
    RepoAtUnfold(s, b, r);
  }

  /** The repository match at `b` when the run there is the repository, followed by `/pull/` and the number. */
  lemma RepoAtUnfold(s: string, b: nat, r: RepoMatch)
    requires r.repo != [] && OccursAt(s, r.repo, b) && RunWithout(s, b, '/') == |r.repo|
    requires OccursAt(s, PullInfix, b + |r.repo|) && NumberAt(s, b + |r.repo| + |PullInfix|) == Some(r.digits)
    ensures RepoAt(s, b) == Some(r)
  {
    OccursAtSlice(s, r.repo, b);
  }

  /** An owner word, `/` and a repository match side by side at `a` are the owner match there. */
  lemma OwnerAtParts(s: string, a: nat, m: UrlMatch)
    requires m.owner != [] && '/' !in m.owner
    requires OccursAt(s, m.owner, a) && OccursAt(s, "/", a + |m.owner|)
    requires RepoAt(s, a + |m.owner| + 1) == Some(RepoPart(m))
    ensures OwnerAt(s, a) == Some(m)
  {
    OccursAtHead(s, "/", a + |m.owner|);
    SlashRunWord(s, a, m.owner);
    OwnerAtUnfold(s, a, m);
  }

  /** The owner match at `a` when the run there is the owner, followed by `/` and a repository match. */
  lemma OwnerAtUnfold(s: string, a: nat, m: UrlMatch)
    requires m.owner != [] && OccursAt(s, m.owner, a) && RunWithout(s, a, '/') == |m.owner|
    requires a + |m.owner| < |s| && RepoAt(s, a + |m.owner| + 1) == Some(RepoPart(m))
    ensures OwnerAt(s, a) == Some(m)
  {
    OccursAtSlice(s, m.owner, a);
  }

  /** A well-shaped owner text at `a`, not followed by a digit, is the owner match there. */
  lemma OwnerAtWord(s: string, a: nat, m: UrlMatch)
    requires Shaped(m)
    requires OccursAt(s, OwnerTail(m), a)
    requires DigitsEndAt(s, a + |OwnerTail(m)|)
    ensures OwnerAt(s, a) == Some(m)
  {
    var r := RepoPart(m);
    var b := a + |m.owner| + 1;
    OccursAtSplit3(s, m.owner, "/", RepoText(r), a);
    OccursAtSplit3(s, r.repo, PullInfix, r.digits, b);
    RepoAtParts(s, b, r);
    OwnerAtParts(s, a, m);
  }

  /** A text that starts with a URL, followed by anything but a digit, matches that URL. */
  lemma UrlAtStart(m: UrlMatch, rest: string)
    requires Shaped(m)
    requires rest == [] || !IsDigit(rest[0])
    ensures UrlAt(UrlText(m) + rest, 0) == Some(m)
  {
    var s := UrlText(m) + rest;
    assert s[..|UrlText(m)|] == UrlText(m);
    OccursAtConcat(s, UrlPrefix, OwnerTail(m), 0);
    if rest != [] {
      assert s[|UrlText(m)|] == rest[0];
    }
    OwnerAtWord(s, |UrlPrefix|, m);
  }

  /** A notification that starts with a pull request URL names that pull request. */
  lemma ParseNotificationRoundTrip(r: Ref, rest: string)
    requires WellFormed(r)
    requires rest == [] || !IsDigit(rest[0])
    ensures ParseNotification(PullRequestUrl(r) + rest) == Success(r)
  {
    var m := UrlMatch(r.owner, r.repo, NatToDecimal(r.number));
    UrlAtStart(m, rest);
    DecimalOfNatToDecimal(r.number);
  }

  /**
   * A parsed notification names a well-formed pull request whose URL, with
   * the number written as in the body, occurs in the body.
   */
  lemma ParseNotificationSound(body: string)
    requires ParseNotification(body).Success?
    ensures var r := ParseNotification(body).value;
      && WellFormed(r)
      && exists digits | AllDigits(digits) && DecimalValue(digits) == r.number ::
           Contains(body, UrlText(UrlMatch(r.owner, r.repo, digits)))
  {
    var j := FirstUrlAt(body, 0);
    UrlAtFacts(body, j);
    var m := UrlAt(body, j).value;
    assert OccursAt(body, UrlText(m), j);
  }

  /** A body with no URL match is reported as such, and only such a body. */
  lemma ParseNotificationMissing(body: string)
    ensures ParseNotification(body) == Failure(New("could not find GitHub pull request URL in email"))
            <==> !HasPullRequestUrl(body)
    ensures ParseNotification(body) == Failure(New("could not find GitHub pull request URL in email"))
            <==> forall k: nat :: k <= |body| ==> UrlAt(body, k).None?
  {
    HasPullRequestUrlIff(body);
  }

  // ---------------------------------------------------------------- the cache key

  /** The key of githubPullRequestCache: `owner/repo#number`. */
  function CacheKey(r: Ref): string {
    r.owner + "/" + r.repo + "#" + NatToDecimal(r.number)
  }

  /** What is left of `a + [c] + b` when `c` occurs in neither `b` nor `b'`: the suffixes agree. */
  lemma LastSeparator(a: string, b: string, a': string, b': string, c: char)
    requires a + [c] + b == a' + [c] + b'
    requires c !in b && c !in b'
    ensures a == a' && b == b'
  {
    var s := a + [c] + b;
    LastIndexOfJoined(a, c, b);
    LastIndexOfJoined(a', c, b');
    assert a == s[..|a|] == a';
    assert b == s[|a| + 1..] == b';
  }

  /** Distinct well-formed pull requests have distinct cache keys. */
  lemma CacheKeyInjective(r1: Ref, r2: Ref)
    requires WellFormed(r1) && WellFormed(r2)
    requires CacheKey(r1) == CacheKey(r2)
    ensures r1 == r2
  {
    var d1, d2 := NatToDecimal(r1.number), NatToDecimal(r2.number);
    var t1, t2 := r1.repo + "#" + d1, r2.repo + "#" + d2;
    assert CacheKey(r1) == r1.owner + ['/'] + t1;
    assert CacheKey(r2) == r2.owner + ['/'] + t2;
    IndexOfJoined(r1.owner, '/', t1);
    IndexOfJoined(r2.owner, '/', t2);
    assert r1.owner == CacheKey(r1)[..|r1.owner|];
    assert r2.owner == CacheKey(r2)[..|r2.owner|];
    assert t1 == CacheKey(r1)[|r1.owner| + 1..];
    assert t2 == CacheKey(r2)[|r2.owner| + 1..];
    assert '#' !in d1 by { assert forall k :: 0 <= k < |d1| ==> IsDigit(d1[k]); }
    assert '#' !in d2 by { assert forall k :: 0 <= k < |d2| ==> IsDigit(d2[k]); }
    LastSeparator(r1.repo, d1, r2.repo, d2, '#');
    NatToDecimalInjective(r1.number, r2.number);
  }

}

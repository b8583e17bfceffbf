/**
 * executePrefetchGitHubPullRequest (cmd/gmail-blade/github.go:63-98): the
 * pull request a notification names, from the process-wide cache or else
 * from the GitHub API, which then fills the cache.
 */
module Prefetch {
  import opened Wrappers
  import opened Text
  import opened Errors
  import opened Effects
  import opened GitHub

  /** Below this many remaining requests the rate-limit quota is reported as low. */
  const LowQuota: int := 500

  const LowQuotaMessage: string := "GitHub API rate limit quota is low"

  /** The trace after a prefetch, the cache after it and the pull request or the error. */
  datatype Prefetched = Prefetched(trace: seq<Event>, cache: map<string, PullRequest>, result: Result<PullRequest, Error>)

  function PrefetchSpec(o: Oracle, cache: map<string, PullRequest>, body: string, h: seq<Event>): Prefetched {
    match ParseNotification(body)
    case Failure(e) => Prefetched(h, cache, Failure(Wrap(e, "parse GitHub notification")))
    case Success(r) =>
      var key := CacheKey(r);
      if key in cache then Prefetched(h, cache, Success(cache[key]))
      else
        var h1 := h + [GetPullRequest(r.owner, r.repo, r.number)];
        match o.pullRequest(h1)
        case Failure(e) => Prefetched(h1, cache, Failure(Wrap(e, "get GitHub pull request " + key)))
        case Success(info) =>
          var h2 := if info.rateRemaining < LowQuota then h1 + [Log(WarnLevel, LowQuotaMessage)] else h1;
          var pr := PullRequest(r.owner, r.repo, r.number, info.author);
          Prefetched(h2, cache[key := pr], Success(pr))
  }

  function RefOf(pr: PullRequest): Ref {
    Ref(pr.owner, pr.repo, pr.number)
  }

  /** Every entry is stored under its own key and names a well-formed pull request. */
  predicate CacheValid(cache: map<string, PullRequest>) {
    forall key | key in cache :: WellFormed(RefOf(cache[key])) && key == CacheKey(RefOf(cache[key]))
  }

  /** A prefetch keeps the cache valid. */
  lemma PrefetchKeepsCacheValid(o: Oracle, cache: map<string, PullRequest>, body: string, h: seq<Event>)
    requires CacheValid(cache)
    ensures CacheValid(PrefetchSpec(o, cache, body, h).cache)
  {
    var parsed := ParseNotification(body);
    if parsed.Success? {
      ParseNotificationSound(body);
    }
  }

  /** A prefetch keeps every entry the cache had and adds at most the entry of the mail's pull request. */
  lemma PrefetchGrowsCache(o: Oracle, cache: map<string, PullRequest>, body: string, h: seq<Event>)
    ensures var p := PrefetchSpec(o, cache, body, h);
      && (forall key | key in cache :: key in p.cache && p.cache[key] == cache[key])
      && (forall key | key in p.cache && key !in cache ::
            ParseNotification(body).Success? && key == CacheKey(ParseNotification(body).value))
  {
    var parsed := ParseNotification(body);
  }

  /**
   * With a valid cache, the pull request a successful prefetch returns is
   * the one the mail names, whether it came from the cache or from the API.
   */
  lemma PrefetchNamesMailPullRequest(o: Oracle, cache: map<string, PullRequest>, body: string, h: seq<Event>)
    requires CacheValid(cache)
    ensures var p := PrefetchSpec(o, cache, body, h);
      p.result.Success? ==> ParseNotification(body).Success? && RefOf(p.result.value) == ParseNotification(body).value
  {
    if ParseNotification(body).Success? {
      var r := ParseNotification(body).value;
      ParseNotificationSound(body);
      var key := CacheKey(r);
      if key in cache {
        CacheKeyInjective(RefOf(cache[key]), r);
      }
    }
  }

  /**
   * A prefetch calls GitHub at most once, only to get the pull request, and
   * only when its key is not cached; it changes nothing anywhere.
   */
  lemma PrefetchCalls(o: Oracle, cache: map<string, PullRequest>, body: string, h: seq<Event>)
    ensures var p := PrefetchSpec(o, cache, body, h);
      && Extends(h, p.trace) && |p.trace| <= |h| + 2
      && (forall k | |h| <= k < |p.trace| :: p.trace[k].GetPullRequest? || p.trace[k] == Log(WarnLevel, LowQuotaMessage))
      && (p.trace != h <==> ParseNotification(body).Success? && CacheKey(ParseNotification(body).value) !in cache)
  {
  }

  /** Once a prefetch has succeeded, the same mail is answered from the cache with no call. */
  lemma PrefetchTwice(o: Oracle, cache: map<string, PullRequest>, body: string, h: seq<Event>, h': seq<Event>)
    requires PrefetchSpec(o, cache, body, h).result.Success?
    ensures var p := PrefetchSpec(o, cache, body, h);
      PrefetchSpec(o, p.cache, body, h') == Prefetched(h', p.cache, p.result)
  {
  }

  /** Only a successful read fills the cache: a failed prefetch leaves it as it was. */
  lemma PrefetchFailureKeepsCache(o: Oracle, cache: map<string, PullRequest>, body: string, h: seq<Event>)
    ensures var p := PrefetchSpec(o, cache, body, h);
      p.result.Failure? ==> p.cache == cache
  {
  }

  /**
   * A mail whose pull request is not cached is answered by GitHub. A reply
   * is stored under the mail's key, with the author the reply names; a
   * failure is returned with the pull request's name and caches nothing.
   */
  lemma PrefetchStoresReply(o: Oracle, cache: map<string, PullRequest>, body: string, h: seq<Event>)
    requires ParseNotification(body).Success? && CacheKey(ParseNotification(body).value) !in cache
    ensures var r := ParseNotification(body).value;
      var h1 := h + [GetPullRequest(r.owner, r.repo, r.number)];
      var p := PrefetchSpec(o, cache, body, h);
      && (o.pullRequest(h1).Success? ==>
            var pr := PullRequest(r.owner, r.repo, r.number, o.pullRequest(h1).value.author);
            p.result == Success(pr) && p.cache == cache[CacheKey(r) := pr])
      && (o.pullRequest(h1).Failure? ==>
            p == Prefetched(h1, cache, Failure(Wrap(o.pullRequest(h1).error, "get GitHub pull request " + CacheKey(r)))))
  {
  }

  /** githubPullRequestCache and the prefetch that fills it. */
  class PullRequestCache {
    var entries: map<string, PullRequest>

    constructor ()
      ensures entries == map[]
    {
      entries := map[];
    }

    method Prefetch(w: World, body: string) returns (r: Result<PullRequest, Error>)
      modifies this, w
      ensures Prefetched(w.trace, entries, r) == PrefetchSpec(w.oracle, old(entries), body, old(w.trace))
    {
      var ref := ParseNotification(body);
      if ref.Failure? {
        return Failure(Wrap(ref.error, "parse GitHub notification"));
      }
      var owner, repo, number := ref.value.owner, ref.value.repo, ref.value.number;
      var key := CacheKey(ref.value);
      if key in entries {
        return Success(entries[key]);
      }
      var info := w.GetPullRequest(owner, repo, number);
      if info.Failure? {
        return Failure(Wrap(info.error, "get GitHub pull request " + key));
      }
      if info.value.rateRemaining < LowQuota {
        w.Emit(Log(WarnLevel, LowQuotaMessage));
      }
      var pullRequest := PullRequest(owner, repo, number, info.value.author);
      entries := entries[key := pullRequest];
      r := Success(pullRequest);
    }
  }
}

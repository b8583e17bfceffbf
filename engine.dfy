/**
 * processMessage (cmd/gmail-blade/main.go:288-448): skip a read message,
 * evaluate the filters in order, prefetching the pull request a filter asks
 * for, collect the actions of the matching filters, and dispatch them.
 */
module Engine {
  import opened Wrappers
  import opened Errors
  import opened Mail
  import opened Expr
  import opened Effects
  import opened GitHub
  import opened Patterns
  import opened Prefetch
  import opened Configuration
  import opened Actions

  const PrefetchFailedMessage: string := "Failed to execute GitHub pull request prefetch"
  const EvalFailedMessage: string := "Failed to run expression"

  // ---------------------------------------------------------------- the environment

  /** The `message` namespace as the environment holds it. */
  function MessageValue(a: Attributes): Value {
    Record(map[
      "from" := Texts(a.from),
      "fromName" := Texts(a.fromName),
      "subject" := Text(a.subject),
      "cc" := Texts(a.cc),
      "to" := Texts(a.to),
      "replyTo" := Texts(a.replyTo),
      "body" := Text(a.body)])
  }

  /** `message`, then every prefetched entry under its own key, in the environment form of its pull request. */
  function EnvOf(a: Attributes, data: map<string, PullRequest>): Env {
    map k | k in {"message"} + data.Keys :: if k in data then Record(GitHub.Env(data[k])) else MessageValue(a)
  }

  /** With only the pull request prefetched, a condition sees the message and, if present, the pull request. */
  lemma EnvOfContents(a: Attributes, data: map<string, PullRequest>)
    requires data.Keys <= {PrefetchKey}
    ensures var env := EnvOf(a, data);
      && env.Keys == {"message"} + data.Keys
      && env["message"] == MessageValue(a)
      && (PrefetchKey in data ==> env[PrefetchKey] == Record(GitHub.Env(data[PrefetchKey])))
      && (PrefetchKey in data ==> FromEnv(env[PrefetchKey].fields) == Some(data[PrefetchKey]))
  {
    if PrefetchKey in data {
      EnvRoundTrip(data[PrefetchKey]);
    }
  }

  /** The environment once the entries under the keys in `done` are added. */
  function EnvPart(a: Attributes, data: map<string, PullRequest>, done: set<string>): Env
    requires done <= data.Keys
  {
    map k | k in {"message"} + done :: if k in done then Record(GitHub.Env(data[k])) else MessageValue(a)
  }

  /** Adding one more entry to a partial environment. */
  lemma EnvPartStep(a: Attributes, data: map<string, PullRequest>, done: set<string>, key: string)
    requires done <= data.Keys && key in data
    ensures EnvPart(a, data, done + {key}) == EnvPart(a, data, done)[key := Record(GitHub.Env(data[key]))]
  {
  }

  /** The environment loop over the prefetched data. */
  method BuildEnv(a: Attributes, data: map<string, PullRequest>) returns (env: Env)
    ensures env == EnvOf(a, data)
  {
    env := map["message" := MessageValue(a)];
    var pending := data.Keys;
    assert env == EnvPart(a, data, data.Keys - pending);
    while pending != {}
      invariant pending <= data.Keys
      invariant env == EnvPart(a, data, data.Keys - pending)
      decreases |pending|
    {
      var key :| key in pending;
      EnvPartStep(a, data, data.Keys - pending, key);
      assert (data.Keys - pending) + {key} == data.Keys - (pending - {key});
      env := env[key := Record(GitHub.Env(data[key]))];
      pending := pending - {key};
    }
    assert data.Keys - pending == data.Keys;
  }

  // ---------------------------------------------------------------- prefetching

  /** The state the prefetch loop carries: trace, process-wide cache and this message's data. */
  datatype Prefetching = Prefetching(trace: seq<Event>, cache: map<string, PullRequest>, data: map<string, PullRequest>)

  /**
   * The prefetch loop of one filter. A prefetch runs only when it asks for a
   * pull request, the body holds a pull request URL and none was prefetched
   * yet; a failed prefetch is logged and the loop goes on.
   */
  function PrefetchAll(o: Oracle, prefetches: seq<string>, body: string, s: Prefetching): Prefetching
    decreases |prefetches|
  {
    if prefetches == [] then s
    else
      PrefetchAll(o, prefetches[1..], body, PrefetchOne(o, prefetches[0], body, s))
  }

  function PrefetchOne(o: Oracle, prefetch: string, body: string, s: Prefetching): Prefetching {
    if RequestsPullRequest(prefetch) && HasPullRequestUrl(body) && PrefetchKey !in s.data then
      var p := PrefetchSpec(o, s.cache, body, s.trace);
      if p.result.Failure? then Prefetching(p.trace + [Log(ErrorLevel, PrefetchFailedMessage)], p.cache, s.data)
      else Prefetching(p.trace, p.cache, s.data[PrefetchKey := p.result.value])
    else s
  }

  /** Once the pull request is prefetched, no further prefetch does anything. */
  lemma {:induction false} PrefetchAllIdle(o: Oracle, prefetches: seq<string>, body: string, s: Prefetching)
    requires PrefetchKey in s.data
    ensures PrefetchAll(o, prefetches, body, s) == s
    decreases |prefetches|
  {
    if prefetches != [] {
      PrefetchAllIdle(o, prefetches[1..], body, s);
    }
  }

  /** A body without a pull request URL prefetches nothing. */
  lemma {:induction false} PrefetchAllNeedsUrl(o: Oracle, prefetches: seq<string>, body: string, s: Prefetching)
    requires !HasPullRequestUrl(body)
    ensures PrefetchAll(o, prefetches, body, s) == s
    decreases |prefetches|
  {
    if prefetches != [] {
      PrefetchAllNeedsUrl(o, prefetches[1..], body, s);
    }
  }

  /** Prefetches that do not ask for a GitHub pull request do nothing. */
  lemma {:induction false} PrefetchAllNeedsRequest(o: Oracle, prefetches: seq<string>, body: string, s: Prefetching)
    requires forall i | 0 <= i < |prefetches| :: !RequestsPullRequest(prefetches[i])
    ensures PrefetchAll(o, prefetches, body, s) == s
    decreases |prefetches|
  {
    if prefetches != [] {
      assert !RequestsPullRequest(prefetches[0]);
      assert forall i | 0 <= i < |prefetches[1..]| :: !RequestsPullRequest(prefetches[1..][i]) by {
        forall i | 0 <= i < |prefetches[1..]|
          ensures !RequestsPullRequest(prefetches[1..][i])
        {
          assert prefetches[1..][i] == prefetches[i + 1];
        }
      }
      PrefetchAllNeedsRequest(o, prefetches[1..], body, s);
    }
  }

  /**
   * A prefetch that runs and fails stores nothing: the message's data and the
   * cache stay as they were, and the failure is logged as the last event.
   */
  lemma PrefetchOneFails(o: Oracle, prefetch: string, body: string, s: Prefetching)
    requires RequestsPullRequest(prefetch) && HasPullRequestUrl(body) && PrefetchKey !in s.data
    requires PrefetchSpec(o, s.cache, body, s.trace).result.Failure?
    ensures var r := PrefetchOne(o, prefetch, body, s);
      && r.data == s.data
      && r.cache == s.cache
      && r.trace == PrefetchSpec(o, s.cache, body, s.trace).trace + [Log(ErrorLevel, PrefetchFailedMessage)]
      && r.trace[|r.trace| - 1] == Log(ErrorLevel, PrefetchFailedMessage)
  {
    PrefetchFailureKeepsCache(o, s.cache, body, s.trace);
  }

  /**
   * What the prefetch state keeps: a valid cache, and data that holds at
   * most the pull request, which is the one the body names.
   */
  predicate Consistent(body: string, s: Prefetching) {
    && CacheValid(s.cache)
    && s.data.Keys <= {PrefetchKey}
    && (PrefetchKey in s.data ==>
          ParseNotification(body).Success? && RefOf(s.data[PrefetchKey]) == ParseNotification(body).value)
  }

  /** The new events of a prefetch: pull request reads and log records. */
  predicate PrefetchEvent(e: Event) {
    e.GetPullRequest? || e.Log?
  }

  predicate PrefetchEventsOnly(h: seq<Event>, h2: seq<Event>) {
    Extends(h, h2) && forall k | |h| <= k < |h2| :: PrefetchEvent(h2[k])
  }

  lemma PrefetchEventsTrans(h1: seq<Event>, h2: seq<Event>, h3: seq<Event>)
    requires PrefetchEventsOnly(h1, h2) && PrefetchEventsOnly(h2, h3)
    ensures PrefetchEventsOnly(h1, h3)
  {
    ExtendsTrans(h1, h2, h3);
    forall k | |h1| <= k < |h3|
      ensures PrefetchEvent(h3[k])
    {
      if k < |h2| {
        assert h3[k] == h3[..|h2|][k];
      }
    }
  }

  lemma PrefetchOneEvents(o: Oracle, prefetch: string, body: string, s: Prefetching)
    ensures PrefetchEventsOnly(s.trace, PrefetchOne(o, prefetch, body, s).trace)
  {
    if RequestsPullRequest(prefetch) && HasPullRequestUrl(body) && PrefetchKey !in s.data {
      PrefetchCalls(o, s.cache, body, s.trace);
      var p := PrefetchSpec(o, s.cache, body, s.trace);
      if p.result.Failure? {
        var h2 := p.trace + [Log(ErrorLevel, PrefetchFailedMessage)];
        assert h2[..|p.trace|] == p.trace;
        PrefetchEventsTrans(s.trace, p.trace, h2);
      }
    }
  }

  /** The prefetch loop only reads from GitHub and logs. */
  lemma {:induction false} PrefetchAllEvents(o: Oracle, prefetches: seq<string>, body: string, s: Prefetching)
    ensures PrefetchEventsOnly(s.trace, PrefetchAll(o, prefetches, body, s).trace)
    decreases |prefetches|
  {
    if prefetches == [] {
      assert s.trace[..|s.trace|] == s.trace;
    } else {
      var s1 := PrefetchOne(o, prefetches[0], body, s);
      PrefetchOneEvents(o, prefetches[0], body, s);
      PrefetchAllEvents(o, prefetches[1..], body, s1);
      PrefetchEventsTrans(s.trace, s1.trace, PrefetchAll(o, prefetches[1..], body, s1).trace);
    }
  }

  lemma PrefetchOneKeeps(o: Oracle, prefetch: string, body: string, s: Prefetching)
    requires Consistent(body, s)
    ensures Consistent(body, PrefetchOne(o, prefetch, body, s))
  {
    if RequestsPullRequest(prefetch) && HasPullRequestUrl(body) && PrefetchKey !in s.data {
      PrefetchKeepsCacheValid(o, s.cache, body, s.trace);
      PrefetchNamesMailPullRequest(o, s.cache, body, s.trace);
    }
  }

  /** The prefetch loop keeps the state consistent. */
  lemma {:induction false} PrefetchAllKeeps(o: Oracle, prefetches: seq<string>, body: string, s: Prefetching)
    requires Consistent(body, s)
    ensures Consistent(body, PrefetchAll(o, prefetches, body, s))
    decreases |prefetches|
  {
    if prefetches != [] {
      PrefetchOneKeeps(o, prefetches[0], body, s);
      PrefetchAllKeeps(o, prefetches[1..], body, PrefetchOne(o, prefetches[0], body, s));
    }
  }

  // ---------------------------------------------------------------- the filters

  /** The state the filter loop carries: the prefetch state and the actions collected so far. */
  datatype Gathered = Gathered(trace: seq<Event>, cache: map<string, PullRequest>, data: map<string, PullRequest>, actions: seq<string>)

  /** The trace after running a condition: a failed run is logged as an error. */
  function AfterCondition(h: seq<Event>, result: EvalResult): seq<Event> {
    if result.EvalError? then h + [Log(ErrorLevel, EvalFailedMessage)] else h
  }

  /**
   * The filter loop from `filters` on: each filter prefetches, runs its
   * condition on the environment, and on a match adds its actions; a
   * matching filter that halts on match ends the loop.
   */
  function GatherFrom(o: Oracle, filters: seq<Filter>, a: Attributes, g: Gathered): Gathered
    decreases |filters|
  {
    if filters == [] then g
    else
      var f := filters[0];
      var p := PrefetchAll(o, f.prefetches, a.body, Prefetching(g.trace, g.cache, g.data));
      var result := f.condition(EnvOf(a, p.data));
      var h := AfterCondition(p.trace, result);
      if IsMatch(result) && f.haltOnMatch then Gathered(h, p.cache, p.data, g.actions + f.actions)
      else if IsMatch(result) then GatherFrom(o, filters[1..], a, Gathered(h, p.cache, p.data, g.actions + f.actions))
      else GatherFrom(o, filters[1..], a, Gathered(h, p.cache, p.data, g.actions))
  }

  /**
   * The actions a fixed environment selects: those of every matching filter,
   * up to and including the first matching filter that halts on match.
   */
  function Selected(filters: seq<Filter>, env: Env): seq<string>
    decreases |filters|
  {
    if filters == [] then []
    else
      var f := filters[0];
      if !IsMatch(f.condition(env)) then Selected(filters[1..], env)
      else if f.haltOnMatch then f.actions
      else f.actions + Selected(filters[1..], env)
  }

  /**
   * Without a pull request URL in the body, or once the pull request is
   * prefetched, no prefetch changes the data, so every condition sees the
   * same environment and the actions are the selected ones.
   */
  lemma {:induction false} GatherFixedEnvironment(o: Oracle, filters: seq<Filter>, a: Attributes, g: Gathered)
    requires !HasPullRequestUrl(a.body) || PrefetchKey in g.data
    ensures var r := GatherFrom(o, filters, a, g);
      r.actions == g.actions + Selected(filters, EnvOf(a, g.data)) && r.data == g.data
    ensures !HasPullRequestUrl(a.body) ==> GatherFrom(o, filters, a, g).cache == g.cache
    decreases |filters|
  {
    if filters == [] {
      assert g.actions + [] == g.actions;
    } else {
      var f := filters[0];
      var s := Prefetching(g.trace, g.cache, g.data);
      if PrefetchKey in g.data {
        PrefetchAllIdle(o, f.prefetches, a.body, s);
      } else {
        PrefetchAllNeedsUrl(o, f.prefetches, a.body, s);
      }
      var p := PrefetchAll(o, f.prefetches, a.body, s);
      var result := f.condition(EnvOf(a, g.data));
      var h := AfterCondition(p.trace, result);
      if IsMatch(result) && !f.haltOnMatch {
        GatherFixedEnvironment(o, filters[1..], a, Gathered(h, p.cache, g.data, g.actions + f.actions));
        assert g.actions + f.actions + Selected(filters[1..], EnvOf(a, g.data))
            == g.actions + (f.actions + Selected(filters[1..], EnvOf(a, g.data)));
      } else if !IsMatch(result) {
        GatherFixedEnvironment(o, filters[1..], a, Gathered(h, p.cache, g.data, g.actions));
      }
    }
  }

  /** A filter's prefetches leave the data alone, or add the pull request where none was. */
  lemma {:induction false} PrefetchAllData(o: Oracle, prefetches: seq<string>, body: string, s: Prefetching)
    ensures var p := PrefetchAll(o, prefetches, body, s);
      || p.data == s.data
      || (PrefetchKey !in s.data && PrefetchKey in p.data && p.data == s.data[PrefetchKey := p.data[PrefetchKey]])
    decreases |prefetches|
  {
    if prefetches != [] {
      var s1 := PrefetchOne(o, prefetches[0], body, s);
      if s1.data == s.data {
        PrefetchAllData(o, prefetches[1..], body, s1);
      } else {
        PrefetchAllIdle(o, prefetches[1..], body, s1);
      }
    }
  }

  /** No filter among `filters` both matches `env` and halts on match. */
  predicate NoHalt(filters: seq<Filter>, env: Env) {
    forall k | 0 <= k < |filters| :: !(filters[k].haltOnMatch && IsMatch(filters[k].condition(env)))
  }

  /**
   * The filters before `k` see `before`, none of them ends the loop, and the
   * filters from `k` on see `after`: `acts` is `base` followed by what each
   * part selects.
   */
  predicate SplitSelects(filters: seq<Filter>, before: Env, after: Env, k: nat, base: seq<string>, acts: seq<string>)
    requires k <= |filters|
  {
    NoHalt(filters[..k], before) && acts == base + Selected(filters[..k], before) + Selected(filters[k..], after)
  }

  /**
   * What the filter loop from `g` to `r` selected. Either the data never
   * changed and every condition saw the environment it started with, or
   * the pull request was prefetched at some filter `k`: the conditions
   * before `k` saw the environment without it and those from `k` on saw it.
   */
  predicate GatherShape(filters: seq<Filter>, a: Attributes, g: Gathered, r: Gathered) {
    || (r.data == g.data && r.actions == g.actions + Selected(filters, EnvOf(a, g.data)))
    || (&& PrefetchKey !in g.data && PrefetchKey in r.data
        && r.data == g.data[PrefetchKey := r.data[PrefetchKey]]
        && exists k | 0 <= k < |filters| ::
             SplitSelects(filters, EnvOf(a, g.data), EnvOf(a, r.data), k, g.actions, r.actions))
  }

  /**
   * Whatever the body, the filter loop collects the actions of every
   * matching filter, in order, up to and including the first matching
   * filter that halts, each condition seeing the pull request exactly from
   * the filter whose prefetch produced it on.
   */
  lemma {:induction false} GatherSelects(o: Oracle, filters: seq<Filter>, a: Attributes, g: Gathered)
    ensures GatherShape(filters, a, g, GatherFrom(o, filters, a, g))
    decreases |filters|
  {
    if filters == [] {
      assert g.actions + [] == g.actions;
    } else {
      var f := filters[0];
      var s := Prefetching(g.trace, g.cache, g.data);
      var p := PrefetchAll(o, f.prefetches, a.body, s);
      if p.data != g.data {
        GatherPrefetchedFirst(o, filters, a, g);
      } else {
        var result := f.condition(EnvOf(a, p.data));
        if !(IsMatch(result) && f.haltOnMatch) {
          var acts := if IsMatch(result) then g.actions + f.actions else g.actions;
          var g1 := Gathered(AfterCondition(p.trace, result), p.cache, p.data, acts);
          GatherSelects(o, filters[1..], a, g1);
          GatherShapeStep(filters, a, g, g1, GatherFrom(o, filters[1..], a, g1));
        } else {
          assert filters[..0] == [] && filters[0..] == filters;
        }
      }
    }
  }

  /** The first filter's prefetch adds the pull request: the split is at filter 0. */
  lemma GatherPrefetchedFirst(o: Oracle, filters: seq<Filter>, a: Attributes, g: Gathered)
    requires filters != []
    requires PrefetchAll(o, filters[0].prefetches, a.body, Prefetching(g.trace, g.cache, g.data)).data != g.data
    ensures GatherShape(filters, a, g, GatherFrom(o, filters, a, g))
  {
    var f := filters[0];
    var s := Prefetching(g.trace, g.cache, g.data);
    PrefetchAllData(o, f.prefetches, a.body, s);
    var p := PrefetchAll(o, f.prefetches, a.body, s);
    var after := EnvOf(a, p.data);
    var result := f.condition(after);
    var acts := if IsMatch(result) then g.actions + f.actions else g.actions;
    var g1 := Gathered(AfterCondition(p.trace, result), p.cache, p.data, acts);
    var r := GatherFrom(o, filters, a, g);
    if !(IsMatch(result) && f.haltOnMatch) {
      assert r == GatherFrom(o, filters[1..], a, g1);
      GatherFixedEnvironment(o, filters[1..], a, g1);
    }
    assert r.data == p.data;
    assert r.actions == g.actions + Selected(filters, after);
    SplitAtZero(filters, EnvOf(a, g.data), after, g.actions, r.actions);
  }

  /** With no filter before the split, all of them see `after`. */
  lemma SplitAtZero(filters: seq<Filter>, before: Env, after: Env, base: seq<string>, out: seq<string>)
    requires out == base + Selected(filters, after)
    ensures SplitSelects(filters, before, after, 0, base, out)
  {
    assert filters[..0] == [] && filters[0..] == filters;
  }

  /**
   * The first filter changes no data and does not end the loop: what the
   * rest of the loop selected, from `g1` on, is what the whole selected.
   */
  lemma GatherShapeStep(filters: seq<Filter>, a: Attributes, g: Gathered, g1: Gathered, r: Gathered)
    requires filters != [] && g1.data == g.data
    requires var f := filters[0]; var result := f.condition(EnvOf(a, g.data));
      && !(IsMatch(result) && f.haltOnMatch)
      && g1.actions == (if IsMatch(result) then g.actions + f.actions else g.actions)
    requires GatherShape(filters[1..], a, g1, r)
    ensures GatherShape(filters, a, g, r)
  {
    var f := filters[0];
    var before := EnvOf(a, g.data);
    if r.data == g1.data && r.actions == g1.actions + Selected(filters[1..], before) {
      assert Selected(filters, before) == (if IsMatch(f.condition(before)) then f.actions else []) + Selected(filters[1..], before);
    } else {
      var k :| 0 <= k < |filters[1..]| && SplitSelects(filters[1..], before, EnvOf(a, r.data), k, g1.actions, r.actions);
      SplitShift(filters, before, EnvOf(a, r.data), k, g.actions, g1.actions, r.actions);
    }
  }

  /**
   * When the first filter sees `before` and does not end the loop, a split
   * of the remaining filters at `k` is a split of all of them at `k + 1`.
   */
  lemma SplitShift(filters: seq<Filter>, before: Env, after: Env, k: nat, base: seq<string>, acts: seq<string>, out: seq<string>)
    requires 0 < |filters| && k < |filters| - 1
    requires !(filters[0].haltOnMatch && IsMatch(filters[0].condition(before)))
    requires acts == (if IsMatch(filters[0].condition(before)) then base + filters[0].actions else base)
    requires SplitSelects(filters[1..], before, after, k, acts, out)
    ensures SplitSelects(filters, before, after, k + 1, base, out)
  {
    var mine := if IsMatch(filters[0].condition(before)) then filters[0].actions else [];
    var front := filters[..k + 1];
    assert front[1..] == filters[1..][..k];
    assert filters[k + 1..] == filters[1..][k..];
    assert Selected(front, before) == mine + Selected(filters[1..][..k], before);
    assert acts == base + mine;
    forall j | 0 <= j < |front|
      ensures !(front[j].haltOnMatch && IsMatch(front[j].condition(before)))
    {
      if j > 0 {
        assert front[j] == filters[1..][..k][j - 1];
      }
    }
  }

  /** A filter that matches and halts ends the loop: the filters after it are never evaluated. */
  lemma HaltEndsGathering(o: Oracle, filters: seq<Filter>, rest: seq<Filter>, a: Attributes, g: Gathered)
    requires filters != [] && filters[0].haltOnMatch
    requires var p := PrefetchAll(o, filters[0].prefetches, a.body, Prefetching(g.trace, g.cache, g.data));
      IsMatch(filters[0].condition(EnvOf(a, p.data)))
    ensures GatherFrom(o, filters + rest, a, g) == GatherFrom(o, filters[..1], a, g)
  {
    assert (filters + rest)[0] == filters[..1][0] == filters[0];
  }

  predicate GatheredConsistent(body: string, g: Gathered) {
    Consistent(body, Prefetching(g.trace, g.cache, g.data))
  }

  /** The filter loop keeps the cache valid and the prefetched data to the body's own pull request. */
  lemma {:induction false} GatherKeeps(o: Oracle, filters: seq<Filter>, a: Attributes, g: Gathered)
    requires GatheredConsistent(a.body, g)
    ensures GatheredConsistent(a.body, GatherFrom(o, filters, a, g))
    decreases |filters|
  {
    if filters != [] {
      var f := filters[0];
      var s := Prefetching(g.trace, g.cache, g.data);
      PrefetchAllKeeps(o, f.prefetches, a.body, s);
      var p := PrefetchAll(o, f.prefetches, a.body, s);
      var result := f.condition(EnvOf(a, p.data));
      var h := AfterCondition(p.trace, result);
      var acts := if IsMatch(result) then g.actions + f.actions else g.actions;
      if !(IsMatch(result) && f.haltOnMatch) {
        GatherKeeps(o, filters[1..], a, Gathered(h, p.cache, p.data, acts));
      }
    }
  }

  /**
   * The filter loop keeps every action collected so far, and only reads
   * from GitHub and logs.
   */
  lemma {:induction false} GatherEvents(o: Oracle, filters: seq<Filter>, a: Attributes, g: Gathered)
    ensures var r := GatherFrom(o, filters, a, g);
      && PrefetchEventsOnly(g.trace, r.trace)
      && |g.actions| <= |r.actions| && r.actions[..|g.actions|] == g.actions
    decreases |filters|
  {
    if filters == [] {
      assert g.trace[..|g.trace|] == g.trace;
    } else {
      var f := filters[0];
      var s := Prefetching(g.trace, g.cache, g.data);
      PrefetchAllEvents(o, f.prefetches, a.body, s);
      var p := PrefetchAll(o, f.prefetches, a.body, s);
      var result := f.condition(EnvOf(a, p.data));
      var h := AfterCondition(p.trace, result);
      assert PrefetchEventsOnly(p.trace, h) by {
        assert h[..|p.trace|] == p.trace;
      }
      PrefetchEventsTrans(g.trace, p.trace, h);
      var acts := if IsMatch(result) then g.actions + f.actions else g.actions;
      assert acts[..|g.actions|] == g.actions;
      if !(IsMatch(result) && f.haltOnMatch) {
        var g1 := Gathered(h, p.cache, p.data, acts);
        GatherEvents(o, filters[1..], a, g1);
        var r := GatherFrom(o, filters[1..], a, g1);
        PrefetchEventsTrans(g.trace, h, r.trace);
        assert r.actions[..|g.actions|] == r.actions[..|acts|][..|g.actions|];
      }
    }
  }

  // ---------------------------------------------------------------- one message

  /** The trace, the cache and the error after processing a message. */
  datatype Processed = Processed(trace: seq<Event>, cache: map<string, PullRequest>, err: Option<Error>)

  /** The actions the filters collect for a message, with the trace, cache and data after evaluating them. */
  function GatherMessage(o: Oracle, cfg: Config, cache: map<string, PullRequest>, m: Message, h: seq<Event>): Gathered {
    GatherFrom(o, cfg.filters, AttributesOf(m), Gathered(h, cache, map[], []))
  }

  function ProcessSpec(o: Oracle, cfg: Config, dryRun: bool, cache: map<string, PullRequest>, m: Message, h: seq<Event>): Processed {
    if IsSeen(m) then Processed(h, cache, None)
    else
      var g := GatherMessage(o, cfg, cache, m, h);
      if g.actions == [] || dryRun then Processed(g.trace, g.cache, None)
      else
        var d := Dispatch(o, cfg.approval, m.uid, g.data, g.actions, g.trace);
        Processed(d.trace, g.cache, d.err)
  }

  /**
   * The prefetched pull request, when there is one, is the one the body
   * names, so a review acts on the mail's own pull request; the cache stays valid.
   */
  lemma ProcessKeepsCache(o: Oracle, cfg: Config, dryRun: bool, cache: map<string, PullRequest>, m: Message, h: seq<Event>)
    requires CacheValid(cache)
    ensures CacheValid(ProcessSpec(o, cfg, dryRun, cache, m, h).cache)
    ensures var g := GatherMessage(o, cfg, cache, m, h);
      && g.data.Keys <= {PrefetchKey}
      && (PrefetchKey in g.data ==>
            var parsed := ParseNotification(Concat(m.body));
            parsed.Success? && RefOf(g.data[PrefetchKey]) == parsed.value)
  {
    GatherKeeps(o, cfg.filters, AttributesOf(m), Gathered(h, cache, map[], []));
  }

  /** What processing a message may add to the trace. */
  predicate ProcessEvent(e: Event, uid: UID, cfg: Config) {
    PrefetchEvent(e) || StepEvent(e, uid, cfg.approval)
  }

  /**
   * Processing a message extends the trace with prefetch reads, log records
   * and dispatched actions on this message alone; a read message gets no
   * event at all, and a dry run or a message no filter gives an action
   * changes nothing and cannot fail.
   */
  lemma ProcessEffects(o: Oracle, cfg: Config, dryRun: bool, cache: map<string, PullRequest>, m: Message, h: seq<Event>)
    ensures var p := ProcessSpec(o, cfg, dryRun, cache, m, h);
      && Extends(h, p.trace)
      && (forall k | |h| <= k < |p.trace| :: ProcessEvent(p.trace[k], m.uid, cfg))
      && (IsSeen(m) ==> p == Processed(h, cache, None))
      && (dryRun ==> p.err.None? && NoMutationAfter(h, p.trace))
      && (GatherMessage(o, cfg, cache, m, h).actions == [] ==> p.err.None? && NoMutationAfter(h, p.trace))
  {
    if IsSeen(m) {
      assert h[..|h|] == h;
    } else {
      GatherEvents(o, cfg.filters, AttributesOf(m), Gathered(h, cache, map[], []));
      var g := GatherMessage(o, cfg, cache, m, h);
      if g.actions != [] && !dryRun {
        DispatchEvents(o, cfg.approval, m.uid, g.data, g.actions, g.trace);
        var d := Dispatch(o, cfg.approval, m.uid, g.data, g.actions, g.trace);
        ExtendsTrans(h, g.trace, d.trace);
        forall k | |h| <= k < |d.trace|
          ensures ProcessEvent(d.trace[k], m.uid, cfg)
        {
          if k < |g.trace| {
            assert d.trace[k] == d.trace[..|g.trace|][k] == g.trace[k];
          }
        }
      }
    }
  }

  // ---------------------------------------------------------------- the imperative loops

  /** The prefetch loop of one filter, against the process-wide cache. */
  method PrefetchFilter(w: World, cache: PullRequestCache, prefetches: seq<string>, body: string,
                        data: map<string, PullRequest>)
    returns (data': map<string, PullRequest>)
    modifies w, cache
    ensures Prefetching(w.trace, cache.entries, data') ==
            PrefetchAll(w.oracle, prefetches, body, Prefetching(old(w.trace), old(cache.entries), data))
  {
    data' := data;
    ghost var goal := PrefetchAll(w.oracle, prefetches, body, Prefetching(w.trace, cache.entries, data));
    assert prefetches[0..] == prefetches;
    for i := 0 to |prefetches|
      invariant goal == PrefetchAll(w.oracle, prefetches[i..], body, Prefetching(w.trace, cache.entries, data'))
    {
      assert prefetches[i..][1..] == prefetches[i + 1..];
      if RequestsPullRequest(prefetches[i]) && HasPullRequestUrl(body) && PrefetchKey !in data' {
        var pr := cache.Prefetch(w, body);
        if pr.Failure? {
          w.Emit(Log(ErrorLevel, PrefetchFailedMessage));
          continue;
        }
        data' := data'[PrefetchKey := pr.value];
      }
    }
    assert prefetches[|prefetches|..] == [];
  }

  /** The filter loop: prefetch, build the environment, run the condition, collect the actions. */
  method GatherActions(w: World, cache: PullRequestCache, filters: seq<Filter>, a: Attributes)
    returns (data: map<string, PullRequest>, actions: seq<string>)
    modifies w, cache
    ensures Gathered(w.trace, cache.entries, data, actions) ==
            GatherFrom(w.oracle, filters, a, Gathered(old(w.trace), old(cache.entries), map[], []))
  {
    data, actions := map[], [];
    ghost var goal := GatherFrom(w.oracle, filters, a, Gathered(w.trace, cache.entries, data, actions));
    assert filters[0..] == filters;
    for i := 0 to |filters|
      invariant goal == GatherFrom(w.oracle, filters[i..], a, Gathered(w.trace, cache.entries, data, actions))
    {
      var f := filters[i];
      assert filters[i..][0] == f && filters[i..][1..] == filters[i + 1..];
      data := PrefetchFilter(w, cache, f.prefetches, a.body, data);
      var env := BuildEnv(a, data);
      var result := f.condition(env);
      if result.EvalError? {
        w.Emit(Log(ErrorLevel, EvalFailedMessage));
      }
      if IsMatch(result) {
        actions := actions + f.actions;
        if f.haltOnMatch {
          return;
        }
      }
    }
    assert filters[|filters|..] == [];
  }

  /** processMessage, against the world and the process-wide pull request cache. */
  method ProcessMessage(w: World, cache: PullRequestCache, cfg: Config, dryRun: bool, m: Message)
    returns (err: Option<Error>)
    modifies w, cache
    ensures Processed(w.trace, cache.entries, err) == ProcessSpec(w.oracle, cfg, dryRun, old(cache.entries), m, old(w.trace))
  {
    if SeenFlag in m.flags {
      return None;
    }
    var a := Normalise(m);
    var data, actions := GatherActions(w, cache, cfg.filters, a);
    if |actions| == 0 || dryRun {
      return None;
    }
    err := DispatchActions(w, cfg.approval, m.uid, data, actions);
  }
}

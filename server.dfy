/**
 * runServer (cmd/gmail-blade/main.go:450-505): scan the inbox again and
 * again with one ledger, back off after transient failures, and stop when
 * the context is done.
 */
module Server {
  import opened Wrappers
  import opened Errors
  import opened Transient
  import opened Mail
  import opened Effects
  import opened GitHub
  import opened Prefetch
  import opened Configuration
  import opened Scan

  /** time.Minute in nanoseconds: the longest the server sleeps. */
  const Minute: Duration := 60_000_000_000

  const FailedMessage: string := "Failed to process messages"
  const BackingOffMessage: string := "Backing off"

  // ---------------------------------------------------------------- the backoff counter

  /** The counter after a scan and the record it logs, if any. */
  datatype Cycled = Cycled(backoff: nat, records: seq<Event>)

  /**
   * A failure that is not a cancellation: a transient one bumps the counter
   * and is logged as an error every fifth time, as a warning otherwise; any
   * other one is logged as an error and leaves the counter alone. Success
   * and cancellation reset it.
   */
  function Cycle(err: Option<Error>, backoff: nat): Cycled {
    if err.Some? && !err.value.canceled then
      if IsTransientError(err) then
        Cycled(backoff + 1, [Log(FailureLevel(backoff + 1), FailedMessage)])
      else
        Cycled(backoff, [Log(ErrorLevel, FailedMessage)])
    else
      Cycled(0, [])
  }

  /** The level of the record for the `count`-th transient failure in a row. */
  function FailureLevel(count: nat): Level {
    if count % 5 == 0 then ErrorLevel else WarnLevel
  }

  /** The counter after the scans that ended with `errs`, starting from `backoff`. */
  function Counter(errs: seq<Option<Error>>, backoff: nat): nat
    decreases |errs|
  {
    if errs == [] then backoff else Counter(errs[1..], Cycle(errs[0], backoff).backoff)
  }

  /** The failure records the scans that ended with `errs` log. */
  function Records(errs: seq<Option<Error>>, backoff: nat): seq<Event>
    decreases |errs|
  {
    if errs == [] then []
    else
      var c := Cycle(errs[0], backoff);
      c.records + Records(errs[1..], c.backoff)
  }

  predicate IsTransientFailure(err: Option<Error>) {
    err.Some? && !err.value.canceled && IsTransientError(err)
  }

  predicate Resets(err: Option<Error>) {
    err.None? || err.value.canceled
  }

  /** The transient failures since the last success or cancellation. */
  function TrailingTransient(errs: seq<Option<Error>>): nat
    decreases |errs|
  {
    if errs == [] then 0
    else
      var last := errs[|errs| - 1];
      if Resets(last) then 0
      else if IsTransientFailure(last) then TrailingTransient(errs[..|errs| - 1]) + 1
      else TrailingTransient(errs[..|errs| - 1])
  }

  lemma {:induction false} CounterSnoc(errs: seq<Option<Error>>, e: Option<Error>, backoff: nat)
    ensures Counter(errs + [e], backoff) == Cycle(e, Counter(errs, backoff)).backoff
    decreases |errs|
  {
    if errs == [] {
      assert [e][1..] == [];
    } else {
      assert (errs + [e])[1..] == errs[1..] + [e];
      CounterSnoc(errs[1..], e, Cycle(errs[0], backoff).backoff);
    }
  }

  /**
   * From a fresh start the counter is the number of transient failures since
   * the last success or cancellation; failures of any other kind do not count.
   */
  lemma {:induction false} CounterIsTrailingTransient(errs: seq<Option<Error>>)
    ensures Counter(errs, 0) == TrailingTransient(errs)
    decreases |errs|
  {
    if errs != [] {
      var init := errs[..|errs| - 1];
      assert errs == init + [errs[|errs| - 1]];
      CounterSnoc(init, errs[|errs| - 1], 0);
      CounterIsTrailingTransient(init);
    }
  }

  /** The records of `n` transient failures in a row after `backoff` earlier ones. */
  function FailureRecords(backoff: nat, n: nat): seq<Event> {
    seq(n, k requires 0 <= k < n => Log(FailureLevel(backoff + k + 1), FailedMessage))
  }

  lemma FailureRecordsCons(backoff: nat, n: nat)
    ensures FailureRecords(backoff, n + 1) ==
            [Log(FailureLevel(backoff + 1), FailedMessage)] + FailureRecords(backoff + 1, n)
  {
    var r, t := FailureRecords(backoff, n + 1), FailureRecords(backoff + 1, n);
    assert forall k | 0 < k < n + 1 :: r[k] == t[k - 1];
  }

  /**
   * A run of transient failures raises the counter by one each, and logs one
   * record each: an error every fifth time the counter is a multiple of five,
   * a warning otherwise.
   */
  lemma {:induction false} TransientRun(errs: seq<Option<Error>>, backoff: nat)
    requires forall k | 0 <= k < |errs| :: IsTransientFailure(errs[k])
    ensures Counter(errs, backoff) == backoff + |errs|
    ensures Records(errs, backoff) == FailureRecords(backoff, |errs|)
    decreases |errs|
  {
    if errs != [] {
      var rest := errs[1..];
      assert forall k | 0 <= k < |rest| :: rest[k] == errs[k + 1];
      TransientRun(rest, backoff + 1);
      FailureRecordsCons(backoff, |rest|);
    }
  }

  /** A failure that is neither transient nor a cancellation leaves the counter where it was. */
  lemma PermanentKeepsCounter(errs: seq<Option<Error>>, e: Option<Error>, backoff: nat)
    requires e.Some? && !e.value.canceled && !IsTransientError(e)
    ensures Counter(errs + [e], backoff) == Counter(errs, backoff)
  {
    CounterSnoc(errs, e, backoff);
  }

  // ---------------------------------------------------------------- the sleep interval

  /** Conversion to a signed 64-bit integer: the arithmetic of time.Duration and of Go's int. */
  function Wrap64(x: int): (r: Duration)
    ensures -0x8000_0000_0000_0000 <= x <= 0x7FFF_FFFF_FFFF_FFFF ==> r == x
    ensures (r - x) % 0x1_0000_0000_0000_0000 == 0
  {
    (x + 0x8000_0000_0000_0000) % 0x1_0000_0000_0000_0000 - 0x8000_0000_0000_0000
  }

  /** The configured interval times one more than the counter, in 64-bit arithmetic, capped at a minute. */
  function SleepInterval(base: Duration, backoff: nat): Duration {
    var product := Wrap64(base * Wrap64(backoff + 1));
    if product > Minute then Minute else product
  }

  /** Without overflow the 64-bit product is the exact one. */
  lemma NoWrap(base: Duration, backoff: nat)
    requires 0 <= base && base * (backoff + 1) <= 0x7FFF_FFFF_FFFF_FFFF
    ensures Wrap64(base * Wrap64(backoff + 1)) == base * (backoff + 1)
  {
    if 0 < base {
      MulAtLeast(base, backoff + 1);
    }
  }

  lemma MulAtLeast(a: int, b: nat)
    requires 1 <= a
    ensures b <= a * b
  {
    assert a * b == b + (a - 1) * b;
  }

  /**
   * Whenever the product fits in 64 bits, the server sleeps the configured
   * interval times one more than the counter, but never more than a minute;
   * it never sleeps more than a minute in any case.
   */
  lemma SleepBounds(base: Duration, backoff: nat)
    ensures SleepInterval(base, backoff) <= Minute
    ensures base * (backoff + 1) <= 0x7FFF_FFFF_FFFF_FFFF && 0 <= base ==>
      SleepInterval(base, backoff) == if base * (backoff + 1) > Minute then Minute else base * (backoff + 1)
  {
    if base * (backoff + 1) <= 0x7FFF_FFFF_FFFF_FFFF && 0 <= base {
      NoWrap(base, backoff);
    }
  }

  lemma MulGrows(a: nat, b: nat, c: nat)
    requires b <= c
    ensures a * b <= a * c
  {
    assert a * c == a * b + a * (c - b);
  }

  /** Without overflow, a higher counter never sleeps less: the backoff is monotone up to the cap. */
  lemma SleepGrows(base: Duration, b1: nat, b2: nat)
    requires 0 <= base && b1 <= b2 && base * (b2 + 1) <= 0x7FFF_FFFF_FFFF_FFFF
    ensures SleepInterval(base, b1) <= SleepInterval(base, b2)
  {
    MulGrows(base, b1 + 1, b2 + 1);
    NoWrap(base, b1);
    NoWrap(base, b2);
  }

  /**
   * The product wraps around: with the largest interval Go can parse, the
   * first transient failure gives a negative interval, that is no sleep.
   */
  lemma SleepWrapsAround()
    ensures SleepInterval(0x7FFF_FFFF_FFFF_FFFF, 1) == -2
  {
  }

  // ---------------------------------------------------------------- the server loop

  /** The state the server loop carries. */
  datatype Serving = Serving(trace: seq<Event>, cache: map<string, PullRequest>, ledger: set<UID>, backoff: nat, stopped: bool)

  /** The trace, counter and stop decision after the pause that follows a scan. */
  datatype Paused = Paused(trace: seq<Event>, backoff: nat, stopped: bool)

  /** One turn of the loop after a scan: log the failure, log a backoff, sleep, and stop if the context is done. */
  function Pause(o: Oracle, base: Duration, err: Option<Error>, backoff: nat, h: seq<Event>): Paused {
    var c := Cycle(err, backoff);
    var sleep := SleepInterval(base, c.backoff);
    var h1 := h + c.records;
    var h2 := if sleep > base then h1 + [Log(WarnLevel, BackingOffMessage)] else h1;
    var h3 := h2 + [Sleep(sleep)];
    Paused(h3, c.backoff, o.cancelled(h3))
  }

  /** The state after a scan and the pause that follows it. */
  function AfterScan(o: Oracle, base: Duration, r: Scanned, backoff: nat): Serving {
    var p := Pause(o, base, r.err, backoff, r.trace);
    Serving(p.trace, r.cache, r.ledger, p.backoff, p.stopped)
  }

  /** One turn of the server loop: a scan with no target list, then the pause. */
  function Turn(o: Oracle, cfg: Config, dryRun: bool, s: Serving): Serving
    requires Finite(o)
  {
    AfterScan(o, cfg.sleepInterval, ScanSpec(o, cfg, dryRun, {}, s.cache, s.ledger, s.trace), s.backoff)
  }

  /** At most `cycles` turns of the server loop, which itself runs until the context is done. */
  function Serve(o: Oracle, cfg: Config, dryRun: bool, cycles: nat, s: Serving): Serving
    requires Finite(o)
    decreases cycles
  {
    if cycles == 0 || s.stopped then s
    else Serve(o, cfg, dryRun, cycles - 1, Turn(o, cfg, dryRun, s))
  }

  /** What the server keeps over a run, relative to the ledger and trace it started from. */
  predicate ServeKeeps(ledger0: set<UID>, dryRun: bool, h0: seq<Event>, s: Serving) {
    && Extends(h0, s.trace)
    && ledger0 <= s.ledger
    && CacheValid(s.cache)
    && (forall k | |h0| <= k < |s.trace| :: ServeEvent(s.trace[k], dryRun))
  }

  /** No event of a server run sleeps more than a minute, and none of a dry run changes anything. */
  predicate ServeEvent(e: Event, dryRun: bool) {
    (e.Sleep? ==> e.duration <= Minute) && (dryRun ==> !IsMutation(e))
  }

  /** A pause only logs and sleeps, for at most a minute. */
  lemma PauseEvents(o: Oracle, base: Duration, err: Option<Error>, backoff: nat, h: seq<Event>)
    ensures var p := Pause(o, base, err, backoff, h);
      && Extends(h, p.trace)
      && forall k | |h| <= k < |p.trace| :: p.trace[k].Log? || (p.trace[k].Sleep? && p.trace[k].duration <= Minute)
  {
    SleepBounds(base, Cycle(err, backoff).backoff);
  }

  lemma ServeStep(o: Oracle, cfg: Config, dryRun: bool, ledger0: set<UID>, h0: seq<Event>, s: Serving)
    requires Finite(o) && ServeKeeps(ledger0, dryRun, h0, s)
    ensures ServeKeeps(ledger0, dryRun, h0, Turn(o, cfg, dryRun, s))
  {
    var r := ScanSpec(o, cfg, dryRun, {}, s.cache, s.ledger, s.trace);
    ScanKeeps(o, cfg, dryRun, {}, s.cache, s.ledger, s.trace);
    PauseEvents(o, cfg.sleepInterval, r.err, s.backoff, r.trace);
    var t := Pause(o, cfg.sleepInterval, r.err, s.backoff, r.trace).trace;
    ExtendsTrans(h0, s.trace, r.trace);
    ExtendsTrans(h0, r.trace, t);
    forall k | |h0| <= k < |t|
      ensures ServeEvent(t[k], dryRun)
    {
      if k < |s.trace| {
        assert t[k] == t[..|s.trace|][k] == s.trace[k];
      } else if k < |r.trace| {
        assert t[k] == t[..|r.trace|][k] == r.trace[k];
        assert ScanEvent(r.trace[k], s.ledger, {}, cfg, dryRun);
      }
    }
  }

  /**
   * Over any number of turns the trace and the ledger only grow, the cache
   * stays valid, no sleep is longer than a minute, and a dry run changes
   * nothing in the mail store or on GitHub.
   */
  lemma {:induction false} ServeInvariant(o: Oracle, cfg: Config, dryRun: bool, cycles: nat, ledger0: set<UID>, h0: seq<Event>, s: Serving)
    requires Finite(o) && ServeKeeps(ledger0, dryRun, h0, s)
    ensures ServeKeeps(ledger0, dryRun, h0, Serve(o, cfg, dryRun, cycles, s))
    decreases cycles
  {
    if cycles > 0 && !s.stopped {
      ServeStep(o, cfg, dryRun, ledger0, h0, s);
      ServeInvariant(o, cfg, dryRun, cycles - 1, ledger0, h0, Turn(o, cfg, dryRun, s));
    }
  }

  /**
   * With a context that stays done once done and a positive sleep interval,
   * a scan that returns context.Canceled stops the server at the pause that
   * follows: that turn is the last. The interval matters because the select
   * prefers the done context only while the timer has not fired.
   */
  lemma CanceledScanEndsServer(o: Oracle, cfg: Config, dryRun: bool, cycles: nat, s: Serving)
    requires Finite(o) && CancelStays(o) && 0 < cfg.sleepInterval && cycles > 0 && !s.stopped
    requires ScanSpec(o, cfg, dryRun, {}, s.cache, s.ledger, s.trace).err == Some(Canceled)
    ensures Turn(o, cfg, dryRun, s).stopped
    ensures Serve(o, cfg, dryRun, cycles, s) == Turn(o, cfg, dryRun, s)
  {
    var r := ScanSpec(o, cfg, dryRun, {}, s.cache, s.ledger, s.trace);
    ScanCanceled(o, cfg, dryRun, {}, s.cache, s.ledger, s.trace);
    PauseEvents(o, cfg.sleepInterval, r.err, s.backoff, r.trace);
    var t := Pause(o, cfg.sleepInterval, r.err, s.backoff, r.trace).trace;
    assert t == r.trace + t[|r.trace|..];
    assert o.cancelled(r.trace + t[|r.trace|..]);
  }

  /** runServer, for at most `cycles` turns; it reports whether the context ended the loop. */
  method RunServer(w: World, cfg: Config, dryRun: bool, cycles: nat) returns (stopped: bool)
    requires Finite(w.oracle)
    modifies w
    ensures var s := Serve(w.oracle, cfg, dryRun, cycles, Serving(old(w.trace), map[], {}, 0, false));
      w.trace == s.trace && stopped == s.stopped
  {
    var cache := new PullRequestCache();
    var ledger := new Ledger();
    var backoff: nat := 0;
    stopped := false;
    ghost var goal := Serve(w.oracle, cfg, dryRun, cycles, Serving(w.trace, cache.entries, ledger.uids, backoff, stopped));
    for i := 0 to cycles
      invariant !stopped
      invariant goal == Serve(w.oracle, cfg, dryRun, cycles - i, Serving(w.trace, cache.entries, ledger.uids, backoff, stopped))
    {
      backoff, stopped := ServeOnce(w, cache, ledger, cfg, dryRun, backoff);
      if stopped {
        return;
      }
    }
  }

  /** One turn of the server loop. */
  method ServeOnce(w: World, cache: PullRequestCache, ledger: Ledger, cfg: Config, dryRun: bool, backoff: nat)
    returns (backoff': nat, stopped: bool)
    requires Finite(w.oracle)
    modifies w, cache, ledger
    ensures Serving(w.trace, cache.entries, ledger.uids, backoff', stopped) ==
            Turn(w.oracle, cfg, dryRun, Serving(old(w.trace), old(cache.entries), old(ledger.uids), backoff, false))
  {
    ghost var before := Serving(w.trace, cache.entries, ledger.uids, backoff, false);
    var err := RunOnce(w, cache, ledger, cfg, dryRun, {});
    ghost var scanned := Scanned(w.trace, cache.entries, ledger.uids, err);
    backoff', stopped := PauseAfter(w, cfg.sleepInterval, err, backoff);
    assert Serving(w.trace, cache.entries, ledger.uids, backoff', stopped) == AfterScan(w.oracle, cfg.sleepInterval, scanned, backoff);
  }

  /** The part of the server loop after a scan. */
  method PauseAfter(w: World, base: Duration, err: Option<Error>, backoff: nat) returns (backoff': nat, stopped: bool)
    modifies w
    ensures Paused(w.trace, backoff', stopped) == Pause(w.oracle, base, err, backoff, old(w.trace))
  {
    ghost var h := w.trace;
    backoff' := backoff;
    if err.Some? && !err.value.canceled {
      if IsTransientError(err) {
        backoff' := backoff' + 1;
        if backoff' % 5 == 0 {
          w.Emit(Log(ErrorLevel, FailedMessage));
        } else {
          w.Emit(Log(WarnLevel, FailedMessage));
        }
      } else {
        w.Emit(Log(ErrorLevel, FailedMessage));
      }
    } else {
      backoff' := 0;
    }
    assert w.trace == h + Cycle(err, backoff).records && backoff' == Cycle(err, backoff).backoff;
    var sleep := Wrap64(base * Wrap64(backoff' + 1));
    if sleep > Minute {
      sleep := Minute;
    }
    if sleep > base {
      w.Emit(Log(WarnLevel, BackingOffMessage));
    }
    w.Emit(Sleep(sleep));
    stopped := w.Cancelled();
  }
}

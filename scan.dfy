/**
 * runOnce (cmd/gmail-blade/main.go:214-286): open the inbox read-only, walk
 * it page by page, and process every message not yet in the ledger (and,
 * when a target list is given, in it); stop at the first error or when the
 * context is done.
 */
module Scan {
  import opened Wrappers
  import opened Text
  import opened Errors
  import opened Mail
  import opened Effects
  import opened GitHub
  import opened Prefetch
  import opened Configuration
  import opened Actions
  import opened Engine

  /** Messages a page asks for past its first; the range is inclusive, so pages share one message. */
  const PageStep: nat := 100

  const Inbox: string := "INBOX"

  /** The trace, cache and ledger after a scan, and its error. */
  datatype Scanned = Scanned(trace: seq<Event>, cache: map<string, PullRequest>, ledger: set<UID>, err: Option<Error>)

  /** A message the scan passes over: already processed, or outside a non-empty target list. */
  predicate Skipped(m: Message, ledger: set<UID>, target: set<UID>) {
    m.uid in ledger || (target != {} && m.uid !in target)
  }

  /** The loop over one page's messages. */
  function ScanMessages(o: Oracle, cfg: Config, dryRun: bool, target: set<UID>, msgs: seq<Message>, s: Scanned): Scanned
    decreases |msgs|
  {
    if msgs == [] then s
    else if o.cancelled(s.trace) then Scanned(s.trace, s.cache, s.ledger, Some(Canceled))
    else if Skipped(msgs[0], s.ledger, target) then ScanMessages(o, cfg, dryRun, target, msgs[1..], s)
    else
      var m := msgs[0];
      var p := ProcessSpec(o, cfg, dryRun, s.cache, m, s.trace);
      if p.err.Some? then Scanned(p.trace, p.cache, s.ledger, Some(Wrap(p.err.value, "uid " + NatToDecimal(m.uid))))
      else ScanMessages(o, cfg, dryRun, target, msgs[1..], Scanned(p.trace, p.cache, s.ledger + {m.uid}, None))
  }

  /** The page loop from sequence number `first` on; it ends at the first empty page. */
  function ScanPages(o: Oracle, cfg: Config, dryRun: bool, target: set<UID>, first: nat, s: Scanned): Scanned
    requires Finite(o)
    decreases o.mailboxSize + 1 - first
  {
    if o.cancelled(s.trace) then Scanned(s.trace, s.cache, s.ledger, Some(Canceled))
    else
      var h1 := s.trace + [Fetch(first, first + PageStep)];
      match o.fetch(h1)
      case Failure(e) => Scanned(h1, s.cache, s.ledger, Some(Wrap(e, "fetch messages")))
      case Success(msgs) =>
        if msgs == [] then Scanned(h1, s.cache, s.ledger, None)
        else
          var r := ScanMessages(o, cfg, dryRun, target, msgs, Scanned(h1, s.cache, s.ledger, None));
          if r.err.Some? then r else ScanPages(o, cfg, dryRun, target, first + PageStep, r)
  }

  /** runOnce: connect, select the inbox read-only, walk the pages from the first message. */
  function ScanSpec(o: Oracle, cfg: Config, dryRun: bool, target: set<UID>,
                    cache: map<string, PullRequest>, ledger: set<UID>, h: seq<Event>): Scanned
    requires Finite(o)
  {
    var h1 := h + [Connect];
    if o.connect(h1).Some? then Scanned(h1, cache, ledger, Some(Wrap(o.connect(h1).value, "get authenticated IMAP client")))
    else
      var h2 := h1 + [Select(Inbox, true)];
      if o.select(h2).Some? then Scanned(h2, cache, ledger, Some(Wrap(o.select(h2).value, "select INBOX")))
      else ScanPages(o, cfg, dryRun, target, 1, Scanned(h2, cache, ledger, None))
  }

  // ---------------------------------------------------------------- what a scan keeps

  /**
   * What a scan may add to the trace, given the ledger it started from: the
   * connection, the read-only inbox, pages of 101 sequence numbers starting
   * at 1, 101, 201 and so on, prefetch reads, logs and GitHub calls, and
   * moves and copies of single messages that were in neither the ledger
   * nor outside a non-empty target list.
   */
  predicate ScanEvent(e: Event, ledger: set<UID>, target: set<UID>, cfg: Config, dryRun: bool) {
    match e
    case Connect => true
    case Select(mailbox, readOnly) => mailbox == Inbox && readOnly
    case Fetch(first, last) => first % PageStep == 1 && last == first + PageStep
    case Move(uids, _) => !dryRun && ActsOnOne(uids, ledger, target)
    case Copy(uids, _) => !dryRun && ActsOnOne(uids, ledger, target)
    case Log(_, _) => true
    case Sleep(_) => false
    case CreateReview(_, _, _, _) => !dryRun && cfg.approval.enabled
    case _ => IsGitHubCall(e) && (!e.GetPullRequest? ==> cfg.approval.enabled)
  }

  /** A move or copy of one message, which was not in the ledger and, given a target list, is in it. */
  predicate ActsOnOne(uids: set<UID>, ledger: set<UID>, target: set<UID>) {
    exists u | u in uids :: uids == {u} && u !in ledger && (target != {} ==> u in target)
  }

  /** The scan's invariant, relative to the ledger and trace it started from. */
  predicate Keeps(ledger0: set<UID>, target: set<UID>, cfg: Config, dryRun: bool, h0: seq<Event>, s: Scanned) {
    && Extends(h0, s.trace)
    && ledger0 <= s.ledger
    && (forall u | u in s.ledger - ledger0 :: target != {} ==> u in target)
    && (forall k | |h0| <= k < |s.trace| :: ScanEvent(s.trace[k], ledger0, target, cfg, dryRun))
    && CacheValid(s.cache)
  }

  lemma KeepsTrans(ledger0: set<UID>, target: set<UID>, cfg: Config, dryRun: bool, h0: seq<Event>, s: Scanned, s2: Scanned)
    requires Keeps(ledger0, target, cfg, dryRun, h0, s) && Extends(s.trace, s2.trace) && s.ledger <= s2.ledger && CacheValid(s2.cache)
    requires forall u | u in s2.ledger - s.ledger :: target != {} ==> u in target
    requires forall k | |s.trace| <= k < |s2.trace| :: ScanEvent(s2.trace[k], ledger0, target, cfg, dryRun)
    ensures Keeps(ledger0, target, cfg, dryRun, h0, s2)
  {
    ExtendsTrans(h0, s.trace, s2.trace);
    forall k | |h0| <= k < |s2.trace|
      ensures ScanEvent(s2.trace[k], ledger0, target, cfg, dryRun)
    {
      if k < |s.trace| {
        assert s2.trace[k] == s2.trace[..|s.trace|][k] == s.trace[k];
      }
    }
  }

  /** Processing one message that the scan does not skip keeps the invariant. */
  lemma ProcessKeeps(o: Oracle, cfg: Config, dryRun: bool, target: set<UID>, ledger0: set<UID>, h0: seq<Event>,
                     m: Message, s: Scanned)
    requires Keeps(ledger0, target, cfg, dryRun, h0, s) && !Skipped(m, s.ledger, target)
    ensures var p := ProcessSpec(o, cfg, dryRun, s.cache, m, s.trace);
      && Keeps(ledger0, target, cfg, dryRun, h0, Scanned(p.trace, p.cache, s.ledger, None))
      && Keeps(ledger0, target, cfg, dryRun, h0, Scanned(p.trace, p.cache, s.ledger + {m.uid}, None))
  {
    var p := ProcessSpec(o, cfg, dryRun, s.cache, m, s.trace);
    ProcessEffects(o, cfg, dryRun, s.cache, m, s.trace);
    ProcessKeepsCache(o, cfg, dryRun, s.cache, m, s.trace);
    forall k | |s.trace| <= k < |p.trace|
      ensures ScanEvent(p.trace[k], ledger0, target, cfg, dryRun)
    {
      assert ProcessEvent(p.trace[k], m.uid, cfg);
      var e := p.trace[k];
      if e.Move? || e.Copy? {
        assert e.uids == {m.uid};
      }
    }
    KeepsTrans(ledger0, target, cfg, dryRun, h0, s, Scanned(p.trace, p.cache, s.ledger, None));
    KeepsTrans(ledger0, target, cfg, dryRun, h0, s, Scanned(p.trace, p.cache, s.ledger + {m.uid}, None));
  }

  lemma {:induction false} ScanMessagesKeeps(o: Oracle, cfg: Config, dryRun: bool, target: set<UID>, ledger0: set<UID>,
                                             h0: seq<Event>, msgs: seq<Message>, s: Scanned)
    requires Keeps(ledger0, target, cfg, dryRun, h0, s)
    ensures Keeps(ledger0, target, cfg, dryRun, h0, ScanMessages(o, cfg, dryRun, target, msgs, s))
    decreases |msgs|
  {
    if msgs != [] && !o.cancelled(s.trace) {
      var m := msgs[0];
      if Skipped(m, s.ledger, target) {
        ScanMessagesKeeps(o, cfg, dryRun, target, ledger0, h0, msgs[1..], s);
      } else {
        ProcessKeeps(o, cfg, dryRun, target, ledger0, h0, m, s);
        var p := ProcessSpec(o, cfg, dryRun, s.cache, m, s.trace);
        if p.err.None? {
          ScanMessagesKeeps(o, cfg, dryRun, target, ledger0, h0, msgs[1..], Scanned(p.trace, p.cache, s.ledger + {m.uid}, None));
        }
      }
    }
  }

  /** Appending one event the scan may add keeps the invariant. */
  lemma KeepsStep(ledger0: set<UID>, target: set<UID>, cfg: Config, dryRun: bool, h0: seq<Event>, s: Scanned, e: Event)
    requires Keeps(ledger0, target, cfg, dryRun, h0, s) && ScanEvent(e, ledger0, target, cfg, dryRun)
    ensures Keeps(ledger0, target, cfg, dryRun, h0, Scanned(s.trace + [e], s.cache, s.ledger, None))
  {
    var h := s.trace + [e];
    assert h[..|s.trace|] == s.trace;
    KeepsTrans(ledger0, target, cfg, dryRun, h0, s, Scanned(h, s.cache, s.ledger, None));
  }

  lemma {:induction false} ScanPagesKeeps(o: Oracle, cfg: Config, dryRun: bool, target: set<UID>, ledger0: set<UID>,
                                          h0: seq<Event>, first: nat, s: Scanned)
    requires Finite(o) && first % PageStep == 1
    requires Keeps(ledger0, target, cfg, dryRun, h0, s)
    ensures Keeps(ledger0, target, cfg, dryRun, h0, ScanPages(o, cfg, dryRun, target, first, s))
    decreases o.mailboxSize + 1 - first
  {
    if !o.cancelled(s.trace) {
      var h1 := s.trace + [Fetch(first, first + PageStep)];
      KeepsStep(ledger0, target, cfg, dryRun, h0, s, Fetch(first, first + PageStep));
      var s1 := Scanned(h1, s.cache, s.ledger, None);
      var r := o.fetch(h1);
      if r.Success? && r.value != [] {
        ScanMessagesKeeps(o, cfg, dryRun, target, ledger0, h0, r.value, s1);
        var n := ScanMessages(o, cfg, dryRun, target, r.value, s1);
        if n.err.None? {
          ScanPagesKeeps(o, cfg, dryRun, target, ledger0, h0, first + PageStep, n);
        }
      }
    }
  }

  /**
   * A scan first connects, then selects INBOX read-only; a failure of either
   * ends the scan with the wrapped error and nothing else done, and only
   * once both succeed does the page loop start.
   */
  lemma ScanOpens(o: Oracle, cfg: Config, dryRun: bool, target: set<UID>,
                  cache: map<string, PullRequest>, ledger: set<UID>, h: seq<Event>)
    requires Finite(o)
    ensures var r := ScanSpec(o, cfg, dryRun, target, cache, ledger, h);
      var h1 := h + [Connect];
      var h2 := h1 + [Select(Inbox, true)];
      && |h| < |r.trace| && r.trace[|h|] == Connect
      && (o.connect(h1).Some? ==>
            r == Scanned(h1, cache, ledger, Some(Wrap(o.connect(h1).value, "get authenticated IMAP client"))))
      && (o.connect(h1).None? ==> |h1| < |r.trace| && r.trace[..|h2|] == h2)
      && (o.connect(h1).None? && o.select(h2).Some? ==>
            r == Scanned(h2, cache, ledger, Some(Wrap(o.select(h2).value, "select INBOX"))))
  {
    var r := ScanSpec(o, cfg, dryRun, target, cache, ledger, h);
    var h1 := h + [Connect];
    var h2 := h1 + [Select(Inbox, true)];
    if o.connect(h1).None? {
      if o.select(h2).None? {
        ScanPagesEnds(o, cfg, dryRun, target, 1, Scanned(h2, cache, ledger, None));
      } else {
        assert r.trace == h2;
      }
      assert r.trace[..|h2|] == h2;
      assert r.trace[|h|] == r.trace[..|h2|][|h|] == h2[|h|];
    }
  }

  /**
   * A scan only ever extends the trace and the ledger, records only messages
   * of a non-empty target list, keeps the cache valid, and never moves or
   * copies a message that was in the ledger when it started: a message seen
   * again on the next page, or in the next scan, is not acted on twice.
   */
  lemma ScanKeeps(o: Oracle, cfg: Config, dryRun: bool, target: set<UID>,
                  cache: map<string, PullRequest>, ledger: set<UID>, h: seq<Event>)
    requires Finite(o) && CacheValid(cache)
    ensures Keeps(ledger, target, cfg, dryRun, h, ScanSpec(o, cfg, dryRun, target, cache, ledger, h))
    ensures var r := ScanSpec(o, cfg, dryRun, target, cache, ledger, h);
      && |h| < |r.trace| && r.trace[|h|] == Connect
      && (o.connect(h + [Connect]).None? ==> |h| + 1 < |r.trace| && r.trace[|h| + 1] == Select(Inbox, true))
  {
    ScanOpens(o, cfg, dryRun, target, cache, ledger, h);
    var s0 := Scanned(h, cache, ledger, None);
    assert Keeps(ledger, target, cfg, dryRun, h, s0) by {
      assert h[..|h|] == h;
    }
    KeepsStep(ledger, target, cfg, dryRun, h, s0, Connect);
    var s1 := Scanned(h + [Connect], cache, ledger, None);
    KeepsStep(ledger, target, cfg, dryRun, h, s1, Select(Inbox, true));
    var s2 := Scanned(h + [Connect] + [Select(Inbox, true)], cache, ledger, None);
    ScanPagesKeeps(o, cfg, dryRun, target, ledger, h, 1, s2);
  }

  /** A dry run changes nothing in the mail store or on GitHub. */
  lemma DryScanChangesNothing(o: Oracle, cfg: Config, target: set<UID>,
                              cache: map<string, PullRequest>, ledger: set<UID>, h: seq<Event>)
    requires Finite(o) && CacheValid(cache)
    ensures var s := ScanSpec(o, cfg, true, target, cache, ledger, h);
      Extends(h, s.trace) && NoMutationAfter(h, s.trace)
  {
    ScanKeeps(o, cfg, true, target, cache, ledger, h);
  }

  // ---------------------------------------------------------------- the ledger of one page

  /** The message loop over `a + b` runs over `a`, then, unless that failed, over `b`. */
  lemma {:induction false} ScanMessagesAppend(o: Oracle, cfg: Config, dryRun: bool, target: set<UID>,
                                              a: seq<Message>, b: seq<Message>, s: Scanned)
    requires s.err.None?
    ensures var r := ScanMessages(o, cfg, dryRun, target, a, s);
      ScanMessages(o, cfg, dryRun, target, a + b, s) ==
        if r.err.Some? then r else ScanMessages(o, cfg, dryRun, target, b, r)
    decreases |a|
  {
    if a == [] {
      assert a + b == b;
    } else {
      assert (a + b)[0] == a[0] && (a + b)[1..] == a[1..] + b;
      var m := a[0];
      if !o.cancelled(s.trace) {
        if Skipped(m, s.ledger, target) {
          ScanMessagesAppend(o, cfg, dryRun, target, a[1..], b, s);
        } else {
          var p := ProcessSpec(o, cfg, dryRun, s.cache, m, s.trace);
          if p.err.None? {
            ScanMessagesAppend(o, cfg, dryRun, target, a[1..], b, Scanned(p.trace, p.cache, s.ledger + {m.uid}, None));
          }
        }
      }
    }
  }

  /**
   * The loop reaches message `j` of the page with no error and the context
   * not done, does not skip it, and processMessage returns no error for it:
   * the point where its UID is recorded.
   */
  predicate Recorded(o: Oracle, cfg: Config, dryRun: bool, target: set<UID>, msgs: seq<Message>, s: Scanned, j: nat)
    requires j < |msgs|
  {
    var pre := ScanMessages(o, cfg, dryRun, target, msgs[..j], s);
    && pre.err.None? && !o.cancelled(pre.trace) && !Skipped(msgs[j], pre.ledger, target)
    && ProcessSpec(o, cfg, dryRun, pre.cache, msgs[j], pre.trace).err.None?
  }

  /** The UIDs a page's loop records. */
  function RecordedUIDs(o: Oracle, cfg: Config, dryRun: bool, target: set<UID>, msgs: seq<Message>, s: Scanned): set<UID> {
    set j: nat | j < |msgs| && Recorded(o, cfg, dryRun, target, msgs, s, j) :: msgs[j].uid
  }

  /** Recording looks only at the messages before it. */
  lemma RecordedPrefix(o: Oracle, cfg: Config, dryRun: bool, target: set<UID>, msgs: seq<Message>, s: Scanned, j: nat, n: nat)
    requires j < n <= |msgs|
    ensures Recorded(o, cfg, dryRun, target, msgs, s, j) == Recorded(o, cfg, dryRun, target, msgs[..n], s, j)
  {
    assert msgs[..n][..j] == msgs[..j];
  }

  /**
   * A page's loop adds to the ledger exactly the UIDs of the messages it
   * records: a UID enters only once processMessage has returned no error
   * for it, and a skipped, failed or unreached message adds nothing.
   */
  lemma {:induction false} ScanMessagesLedger(o: Oracle, cfg: Config, dryRun: bool, target: set<UID>, msgs: seq<Message>, s: Scanned)
    requires s.err.None?
    ensures ScanMessages(o, cfg, dryRun, target, msgs, s).ledger == s.ledger + RecordedUIDs(o, cfg, dryRun, target, msgs, s)
    decreases |msgs|
  {
    if msgs == [] {
      assert RecordedUIDs(o, cfg, dryRun, target, msgs, s) == {};
    } else {
      var n := |msgs| - 1;
      var front := msgs[..n];
      var m := msgs[n];
      assert msgs == front + [m];
      ScanMessagesLedger(o, cfg, dryRun, target, front, s);
      ScanMessagesAppend(o, cfg, dryRun, target, front, [m], s);
      var pre := ScanMessages(o, cfg, dryRun, target, front, s);
      var earlier := RecordedUIDs(o, cfg, dryRun, target, front, s);
      var all := RecordedUIDs(o, cfg, dryRun, target, msgs, s);
      forall j: nat | j < n
        ensures Recorded(o, cfg, dryRun, target, msgs, s, j) == Recorded(o, cfg, dryRun, target, front, s, j)
      {
        RecordedPrefix(o, cfg, dryRun, target, msgs, s, j, n);
      }
      var last := if Recorded(o, cfg, dryRun, target, msgs, s, n) then {m.uid} else {};
      assert all == earlier + last;
      if pre.err.None? {
        assert msgs[..n] == front;
        LastMessageLedger(o, cfg, dryRun, target, m, pre);
      }
    }
  }

  /** One message adds its UID to the ledger exactly when it is recorded. */
  lemma LastMessageLedger(o: Oracle, cfg: Config, dryRun: bool, target: set<UID>, m: Message, pre: Scanned)
    requires pre.err.None?
    ensures ScanMessages(o, cfg, dryRun, target, [m], pre).ledger ==
      pre.ledger + (if !o.cancelled(pre.trace) && !Skipped(m, pre.ledger, target)
                       && ProcessSpec(o, cfg, dryRun, pre.cache, m, pre.trace).err.None?
                    then {m.uid} else {})
  {
    assert [m][1..] == [];
  }

  /**
   * The first message processMessage fails on ends the page's loop with
   * that error, wrapped with its UID; the ledger keeps only what was
   * recorded before it.
   */
  lemma StopsAtFailure(o: Oracle, cfg: Config, dryRun: bool, target: set<UID>, msgs: seq<Message>, s: Scanned, j: nat)
    requires s.err.None? && j < |msgs|
    ensures var pre := ScanMessages(o, cfg, dryRun, target, msgs[..j], s);
      var p := ProcessSpec(o, cfg, dryRun, pre.cache, msgs[j], pre.trace);
      pre.err.None? && !o.cancelled(pre.trace) && !Skipped(msgs[j], pre.ledger, target) && p.err.Some? ==>
        ScanMessages(o, cfg, dryRun, target, msgs, s) ==
          Scanned(p.trace, p.cache, pre.ledger, Some(Wrap(p.err.value, "uid " + NatToDecimal(msgs[j].uid))))
  {
    assert msgs == msgs[..j] + msgs[j..];
    assert msgs[j..] == [msgs[j]] + msgs[j + 1..];
    ScanMessagesAppend(o, cfg, dryRun, target, msgs[..j], msgs[j..], s);
  }

  /** A skipped message costs nothing: no event, and the cache and ledger stay as they were. */
  lemma SkipAddsNothing(o: Oracle, cfg: Config, dryRun: bool, target: set<UID>, msgs: seq<Message>, s: Scanned, j: nat)
    requires s.err.None? && j < |msgs|
    ensures var pre := ScanMessages(o, cfg, dryRun, target, msgs[..j], s);
      pre.err.None? && !o.cancelled(pre.trace) && Skipped(msgs[j], pre.ledger, target) ==>
        ScanMessages(o, cfg, dryRun, target, msgs[..j + 1], s) == pre
  {
    assert msgs[..j + 1] == msgs[..j] + [msgs[j]];
    ScanMessagesAppend(o, cfg, dryRun, target, msgs[..j], [msgs[j]], s);
    assert [msgs[j]][1..] == [];
  }

  // ---------------------------------------------------------------- the pages

  /** The Fetch events of a trace, in order. */
  function Fetches(t: seq<Event>): seq<Event>
    decreases |t|
  {
    if t == [] then [] else (if t[0].Fetch? then [t[0]] else []) + Fetches(t[1..])
  }

  lemma {:induction false} FetchesAppend(a: seq<Event>, b: seq<Event>)
    ensures Fetches(a + b) == Fetches(a) + Fetches(b)
    decreases |a|
  {
    if a == [] {
      assert a + b == b;
    } else {
      assert (a + b)[0] == a[0] && (a + b)[1..] == a[1..] + b;
      FetchesAppend(a[1..], b);
    }
  }

  lemma {:induction false} FetchesNone(t: seq<Event>)
    requires forall k | 0 <= k < |t| :: !t[k].Fetch?
    ensures Fetches(t) == []
    decreases |t|
  {
    if t != [] {
      assert !t[0].Fetch?;
      FetchesNone(t[1..]);
    }
  }

  /** `n` pages from sequence number `first` on, one step apart. */
  function PageFetches(first: nat, n: nat): seq<Event>
    decreases n
  {
    if n == 0 then [] else [Fetch(first, first + PageStep)] + PageFetches(first + PageStep, n - 1)
  }

  /** Page `j` asks for the sequence numbers `first + 100 j` to `first + 100 (j + 1)`. */
  lemma {:induction false} PageFetchesAt(first: nat, n: nat, j: nat)
    requires j < n
    ensures |PageFetches(first, n)| == n
    ensures PageFetches(first, n)[j] == Fetch(first + j * PageStep, first + (j + 1) * PageStep)
    decreases n
  {
    if j > 0 {
      PageFetchesAt(first + PageStep, n - 1, j - 1);
    } else if n > 1 {
      PageFetchesAt(first + PageStep, n - 1, 0);
    }
  }

  /** Events added after `h` in `h2`, which extends it, are not Fetch events. */
  predicate NoFetchAfter(h: seq<Event>, h2: seq<Event>) {
    Extends(h, h2) && forall k | |h| <= k < |h2| :: !h2[k].Fetch?
  }

  lemma NoFetchAfterTrans(h1: seq<Event>, h2: seq<Event>, h3: seq<Event>)
    requires NoFetchAfter(h1, h2) && NoFetchAfter(h2, h3)
    ensures NoFetchAfter(h1, h3)
  {
    ExtendsTrans(h1, h2, h3);
    forall k | |h1| <= k < |h2|
      ensures !h3[k].Fetch?
    {
      assert h3[k] == h3[..|h2|][k];
    }
  }

  /** The events after `h` in `h2` hold no Fetch. */
  lemma NoFetchSuffix(h: seq<Event>, h2: seq<Event>)
    requires NoFetchAfter(h, h2)
    ensures Fetches(h2[|h|..]) == []
  {
    var t := h2[|h|..];
    forall k | 0 <= k < |t|
      ensures !t[k].Fetch?
    {
      assert t[k] == h2[|h| + k];
    }
    FetchesNone(t);
  }

  /** A page's loop fetches nothing. */
  lemma {:induction false} ScanMessagesNoFetch(o: Oracle, cfg: Config, dryRun: bool, target: set<UID>, msgs: seq<Message>, s: Scanned)
    ensures NoFetchAfter(s.trace, ScanMessages(o, cfg, dryRun, target, msgs, s).trace)
    decreases |msgs|
  {
    assert s.trace[..|s.trace|] == s.trace;
    if msgs != [] && !o.cancelled(s.trace) {
      var m := msgs[0];
      if Skipped(m, s.ledger, target) {
        ScanMessagesNoFetch(o, cfg, dryRun, target, msgs[1..], s);
      } else {
        var p := ProcessSpec(o, cfg, dryRun, s.cache, m, s.trace);
        ProcessEffects(o, cfg, dryRun, s.cache, m, s.trace);
        assert NoFetchAfter(s.trace, p.trace) by {
          forall k | |s.trace| <= k < |p.trace|
            ensures !p.trace[k].Fetch?
          {
            assert ProcessEvent(p.trace[k], m.uid, cfg);
          }
        }
        if p.err.None? {
          var s1 := Scanned(p.trace, p.cache, s.ledger + {m.uid}, None);
          ScanMessagesNoFetch(o, cfg, dryRun, target, msgs[1..], s1);
          NoFetchAfterTrans(s.trace, p.trace, ScanMessages(o, cfg, dryRun, target, msgs[1..], s1).trace);
        }
      }
    }
  }

  lemma SuffixSplit(a: seq<Event>, b: seq<Event>, c: seq<Event>)
    requires Extends(a, b) && Extends(b, c)
    ensures c[|a|..] == b[|a|..] + c[|b|..]
  {
    assert c == c[..|b|] + c[|b|..];
  }

  /**
   * One page's Fetch, then events with no Fetch, then `n` further pages:
   * `n + 1` pages from `first` on.
   */
  lemma FetchesStep(h: seq<Event>, first: nat, t1: seq<Event>, t: seq<Event>, n: nat)
    requires NoFetchAfter(h + [Fetch(first, first + PageStep)], t1) && Extends(t1, t)
    requires Fetches(t[|t1|..]) == PageFetches(first + PageStep, n)
    ensures Extends(h, t) && Fetches(t[|h|..]) == PageFetches(first, n + 1)
  {
    var e := Fetch(first, first + PageStep);
    var h1 := h + [e];
    assert Extends(h, h1) by {
      assert h1[..|h|] == h;
    }
    ExtendsTrans(h1, t1, t);
    ExtendsTrans(h, h1, t);
    SuffixSplit(h1, t1, t);
    SuffixSplit(h, h1, t);
    assert h1[|h|..] == [e];
    NoFetchSuffix(h1, t1);
    FetchesAppend(t1[|h1|..], t[|t1|..]);
    FetchesAppend([e], t[|h1|..]);
    assert Fetches([e]) == [e] by {
      assert [e][1..] == [];
    }
  }

  /** After `h`, `t` fetches consecutive pages from `first` on, in order, and no other Fetch. */
  ghost predicate PagesFrom(first: nat, h: seq<Event>, t: seq<Event>) {
    Extends(h, t) && exists n: nat :: Fetches(t[|h|..]) == PageFetches(first, n)
  }

  /**
   * The page loop asks for consecutive pages from `first` on, in order, one
   * Fetch each and no other Fetch.
   */
  lemma {:induction false} ScanPagesFetches(o: Oracle, cfg: Config, dryRun: bool, target: set<UID>, first: nat, s: Scanned)
    requires Finite(o)
    ensures PagesFrom(first, s.trace, ScanPages(o, cfg, dryRun, target, first, s).trace)
    decreases o.mailboxSize + 1 - first
  {
    var r := ScanPages(o, cfg, dryRun, target, first, s);
    if o.cancelled(s.trace) {
      assert r.trace[|s.trace|..] == [] && r.trace[..|s.trace|] == s.trace;
      assert Fetches(r.trace[|s.trace|..]) == PageFetches(first, 0);
    } else {
      var h1 := s.trace + [Fetch(first, first + PageStep)];
      var reply := o.fetch(h1);
      if reply.Success? && reply.value != [] {
        var s1 := Scanned(h1, s.cache, s.ledger, None);
        var r1 := ScanMessages(o, cfg, dryRun, target, reply.value, s1);
        ScanMessagesNoFetch(o, cfg, dryRun, target, reply.value, s1);
        if r1.err.Some? {
          assert r1.trace[|r1.trace|..] == [] && r1.trace[..|r1.trace|] == r1.trace;
          FetchesStep(s.trace, first, r1.trace, r1.trace, 0);
        } else {
          ScanPagesFetches(o, cfg, dryRun, target, first + PageStep, r1);
          var n: nat :| Fetches(r.trace[|r1.trace|..]) == PageFetches(first + PageStep, n);
          FetchesStep(s.trace, first, r1.trace, r.trace, n);
        }
      } else {
        assert h1[|h1|..] == [] && h1[..|h1|] == h1;
        FetchesStep(s.trace, first, h1, h1, 0);
      }
    }
  }

  /** The Fetch at position `k` of `t` came back with a non-empty page. */
  predicate FetchedPage(o: Oracle, t: seq<Event>, k: nat)
    requires k < |t|
  {
    o.fetch(t[..k + 1]).Success? && o.fetch(t[..k + 1]).value != []
  }

  /** Every Fetch after `h` in `t`, except a last event, came back with a non-empty page. */
  predicate FetchedBefore(o: Oracle, h: seq<Event>, t: seq<Event>) {
    forall k | |h| <= k < |t| - 1 && t[k].Fetch? :: FetchedPage(o, t, k)
  }

  /** `t` adds events after `h` and its last event fetched an empty page. */
  predicate EndsEmpty(o: Oracle, h: seq<Event>, t: seq<Event>) {
    |h| < |t| && t[|t| - 1].Fetch? && o.fetch(t) == Success([])
  }

  /**
   * A Fetch that came back non-empty, followed by events with no Fetch and
   * then by a trace whose every Fetch but the last came back non-empty: the
   * whole has that property too.
   */
  lemma FetchedPagesStep(o: Oracle, h: seq<Event>, h1: seq<Event>, t1: seq<Event>, t: seq<Event>)
    requires Extends(h, h1) && |h1| == |h| + 1 && FetchedPage(o, h1, |h|)
    requires NoFetchAfter(h1, t1) && Extends(t1, t) && FetchedBefore(o, t1, t)
    ensures FetchedBefore(o, h, t)
  {
    ExtendsTrans(h1, t1, t);
    forall k | |h| <= k < |t| - 1 && t[k].Fetch?
      ensures FetchedPage(o, t, k)
    {
      if k < |h1| {
        assert t[..k + 1] == h1 && h1[..k + 1] == h1;
      }
    }
  }

  /**
   * A page is asked for only after the previous one came back non-empty,
   * and a scan that ends without error ends at a page that came back empty.
   */
  lemma {:induction false} ScanPagesEnds(o: Oracle, cfg: Config, dryRun: bool, target: set<UID>, first: nat, s: Scanned)
    requires Finite(o)
    ensures var r := ScanPages(o, cfg, dryRun, target, first, s);
      && Extends(s.trace, r.trace) && FetchedBefore(o, s.trace, r.trace)
      && (r.err.None? ==> EndsEmpty(o, s.trace, r.trace))
    decreases o.mailboxSize + 1 - first
  {
    var r := ScanPages(o, cfg, dryRun, target, first, s);
    assert s.trace[..|s.trace|] == s.trace;
    if !o.cancelled(s.trace) {
      var h1 := s.trace + [Fetch(first, first + PageStep)];
      assert h1[..|s.trace|] == s.trace;
      var reply := o.fetch(h1);
      if reply.Success? && reply.value != [] {
        assert FetchedPage(o, h1, |s.trace|) by {
          assert h1[..|s.trace| + 1] == h1;
        }
        var s1 := Scanned(h1, s.cache, s.ledger, None);
        var r1 := ScanMessages(o, cfg, dryRun, target, reply.value, s1);
        ScanMessagesNoFetch(o, cfg, dryRun, target, reply.value, s1);
        if r1.err.None? {
          ScanPagesEnds(o, cfg, dryRun, target, first + PageStep, r1);
        } else {
          assert r.trace[..|r1.trace|] == r1.trace;
        }
        EndsStep(o, s.trace, h1, r1.trace, r.trace, r.err.None?);
      }
    }
  }

  /** A non-empty page, its messages, then the rest of the page loop. */
  lemma EndsStep(o: Oracle, h: seq<Event>, h1: seq<Event>, t1: seq<Event>, t: seq<Event>, clean: bool)
    requires Extends(h, h1) && |h1| == |h| + 1 && FetchedPage(o, h1, |h|)
    requires NoFetchAfter(h1, t1) && Extends(t1, t) && FetchedBefore(o, t1, t)
    requires clean ==> EndsEmpty(o, t1, t)
    ensures Extends(h, t) && FetchedBefore(o, h, t) && (clean ==> EndsEmpty(o, h, t))
  {
    FetchedPagesStep(o, h, h1, t1, t);
    ExtendsTrans(h1, t1, t);
    ExtendsTrans(h, h1, t);
  }

  /** Events with no Fetch before a run of pages leave the pages as they were. */
  lemma PagingAfter(o: Oracle, h: seq<Event>, h2: seq<Event>, t: seq<Event>)
    requires NoFetchAfter(h, h2) && PagesFrom(1, h2, t) && FetchedBefore(o, h2, t)
    ensures PagesFrom(1, h, t) && FetchedBefore(o, h, t)
  {
    var n: nat :| Fetches(t[|h2|..]) == PageFetches(1, n);
    ExtendsTrans(h, h2, t);
    SuffixSplit(h, h2, t);
    NoFetchSuffix(h, h2);
    FetchesAppend(h2[|h|..], t[|h2|..]);
    assert Fetches(t[|h|..]) == PageFetches(1, n);
  }

  /** The page loop from sequence number 1 on, after events with no Fetch. */
  lemma PagingFrom(o: Oracle, cfg: Config, dryRun: bool, target: set<UID>, h: seq<Event>, s: Scanned)
    requires Finite(o) && NoFetchAfter(h, s.trace)
    ensures var r := ScanPages(o, cfg, dryRun, target, 1, s);
      && PagesFrom(1, h, r.trace) && FetchedBefore(o, h, r.trace)
      && (r.err.None? ==> EndsEmpty(o, h, r.trace))
  {
    var r := ScanPages(o, cfg, dryRun, target, 1, s);
    ScanPagesFetches(o, cfg, dryRun, target, 1, s);
    ScanPagesEnds(o, cfg, dryRun, target, 1, s);
    PagingAfter(o, h, s.trace, r.trace);
  }

  /**
   * runOnce asks for the pages from sequence number 1 on, in order, each
   * only after the previous came back non-empty; when it returns no error,
   * its last call fetched an empty page.
   */
  lemma ScanPaging(o: Oracle, cfg: Config, dryRun: bool, target: set<UID>,
                   cache: map<string, PullRequest>, ledger: set<UID>, h: seq<Event>)
    requires Finite(o)
    ensures var r := ScanSpec(o, cfg, dryRun, target, cache, ledger, h);
      && PagesFrom(1, h, r.trace) && FetchedBefore(o, h, r.trace)
      && (r.err.None? ==> EndsEmpty(o, h, r.trace))
  {
    var h1 := h + [Connect];
    var h2 := h1 + [Select(Inbox, true)];
    assert NoFetchAfter(h, h1) by {
      assert h1[..|h|] == h;
    }
    assert NoFetchAfter(h, h2) by {
      assert h2[..|h|] == h;
    }
    if o.connect(h1).Some? {
      assert h1[|h1|..] == [] && h1[..|h1|] == h1;
      assert Fetches(h1[|h1|..]) == PageFetches(1, 0);
      PagingAfter(o, h, h1, h1);
    } else if o.select(h2).Some? {
      assert h2[|h2|..] == [] && h2[..|h2|] == h2;
      assert Fetches(h2[|h2|..]) == PageFetches(1, 0);
      PagingAfter(o, h, h2, h2);
    } else {
      PagingFrom(o, cfg, dryRun, target, h, Scanned(h2, cache, ledger, None));
    }
  }

  // ---------------------------------------------------------------- cancellation

  /** A page's loop ends in context.Canceled only where it found the context done. */
  lemma {:induction false} ScanMessagesCanceled(o: Oracle, cfg: Config, dryRun: bool, target: set<UID>,
                                                msgs: seq<Message>, s: Scanned)
    requires s.err.None?
    ensures var r := ScanMessages(o, cfg, dryRun, target, msgs, s);
      r.err == Some(Canceled) ==> o.cancelled(r.trace)
    decreases |msgs|
  {
    if msgs != [] && !o.cancelled(s.trace) {
      var m := msgs[0];
      if Skipped(m, s.ledger, target) {
        ScanMessagesCanceled(o, cfg, dryRun, target, msgs[1..], s);
      } else {
        var p := ProcessSpec(o, cfg, dryRun, s.cache, m, s.trace);
        if p.err.Some? {
          WrapIsNotCanceled(p.err.value, "uid " + NatToDecimal(m.uid));
        } else {
          ScanMessagesCanceled(o, cfg, dryRun, target, msgs[1..], Scanned(p.trace, p.cache, s.ledger + {m.uid}, None));
        }
      }
    }
  }

  /** The page loop ends in context.Canceled only where it found the context done. */
  lemma {:induction false} ScanPagesCanceled(o: Oracle, cfg: Config, dryRun: bool, target: set<UID>, first: nat, s: Scanned)
    requires Finite(o) && s.err.None?
    ensures var r := ScanPages(o, cfg, dryRun, target, first, s);
      r.err == Some(Canceled) ==> o.cancelled(r.trace)
    decreases o.mailboxSize + 1 - first
  {
    if !o.cancelled(s.trace) {
      var h1 := s.trace + [Fetch(first, first + PageStep)];
      match o.fetch(h1)
      case Failure(e) =>
        WrapIsNotCanceled(e, "fetch messages");
      case Success(msgs) =>
        if msgs != [] {
          var r := ScanMessages(o, cfg, dryRun, target, msgs, Scanned(h1, s.cache, s.ledger, None));
          ScanMessagesCanceled(o, cfg, dryRun, target, msgs, Scanned(h1, s.cache, s.ledger, None));
          if r.err.None? {
            ScanPagesCanceled(o, cfg, dryRun, target, first + PageStep, r);
          }
        }
    }
  }

  /** runOnce returns context.Canceled only when it found the context done, at the point where it returned. */
  lemma ScanCanceled(o: Oracle, cfg: Config, dryRun: bool, target: set<UID>,
                     cache: map<string, PullRequest>, ledger: set<UID>, h: seq<Event>)
    requires Finite(o)
    ensures var r := ScanSpec(o, cfg, dryRun, target, cache, ledger, h);
      r.err == Some(Canceled) ==> o.cancelled(r.trace)
  {
    var h1 := h + [Connect];
    if o.connect(h1).Some? {
      WrapIsNotCanceled(o.connect(h1).value, "get authenticated IMAP client");
    } else {
      var h2 := h1 + [Select(Inbox, true)];
      if o.select(h2).Some? {
        WrapIsNotCanceled(o.select(h2).value, "select INBOX");
      } else {
        ScanPagesCanceled(o, cfg, dryRun, target, 1, Scanned(h2, cache, ledger, None));
      }
    }
  }

  // ---------------------------------------------------------------- the imperative scan

  /** processedUIDs: the UIDs processed so far, shared by every scan of a server run. */
  class Ledger {
    var uids: set<UID>

    constructor ()
      ensures uids == {}
    {
      uids := {};
    }

    function Contains(u: UID): bool
      reads this
    {
      u in uids
    }

    method Add(u: UID)
      modifies this
      ensures uids == old(uids) + {u}
    {
      uids := uids + {u};
    }
  }

  /** The message loop of one page. */
  method ScanPage(w: World, cache: PullRequestCache, ledger: Ledger, cfg: Config, dryRun: bool,
                  target: set<UID>, msgs: seq<Message>)
    returns (err: Option<Error>)
    modifies w, cache, ledger
    ensures Scanned(w.trace, cache.entries, ledger.uids, err) ==
            ScanMessages(w.oracle, cfg, dryRun, target, msgs, Scanned(old(w.trace), old(cache.entries), old(ledger.uids), None))
  {
    ghost var goal := ScanMessages(w.oracle, cfg, dryRun, target, msgs, Scanned(w.trace, cache.entries, ledger.uids, None));
    assert msgs[0..] == msgs;
    for i := 0 to |msgs|
      invariant goal == ScanMessages(w.oracle, cfg, dryRun, target, msgs[i..], Scanned(w.trace, cache.entries, ledger.uids, None))
    {
      var m := msgs[i];
      assert msgs[i..][0] == m && msgs[i..][1..] == msgs[i + 1..];
      if w.Cancelled() {
        return Some(Canceled);
      }
      if ledger.Contains(m.uid) {
        continue;
      }
      if |target| > 0 && m.uid !in target {
        continue;
      }
      err := ProcessMessage(w, cache, cfg, dryRun, m);
      if err.Some? {
        return Some(Wrap(err.value, "uid " + NatToDecimal(m.uid)));
      }
      ledger.Add(m.uid);
    }
    assert msgs[|msgs|..] == [];
    err := None;
  }

  /** runOnce, against the world, the process-wide cache and the ledger. */
  method RunOnce(w: World, cache: PullRequestCache, ledger: Ledger, cfg: Config, dryRun: bool, target: set<UID>)
    returns (err: Option<Error>)
    requires Finite(w.oracle)
    modifies w, cache, ledger
    ensures Scanned(w.trace, cache.entries, ledger.uids, err) ==
            ScanSpec(w.oracle, cfg, dryRun, target, old(cache.entries), old(ledger.uids), old(w.trace))
  {
    err := w.Connect();
    if err.Some? {
      return Some(Wrap(err.value, "get authenticated IMAP client"));
    }
    err := w.Select(Inbox, true);
    if err.Some? {
      return Some(Wrap(err.value, "select INBOX"));
    }
    var first: nat := 1;
    ghost var goal := ScanPages(w.oracle, cfg, dryRun, target, first, Scanned(w.trace, cache.entries, ledger.uids, None));
    while true
      invariant goal == ScanPages(w.oracle, cfg, dryRun, target, first, Scanned(w.trace, cache.entries, ledger.uids, None))
      decreases w.oracle.mailboxSize + 1 - first
    {
      if w.Cancelled() {
        return Some(Canceled);
      }
      var page := w.Fetch(first, first + PageStep);
      if page.Failure? {
        return Some(Wrap(page.error, "fetch messages"));
      }
      if page.value == [] {
        return None;
      }
      err := ScanPage(w, cache, ledger, cfg, dryRun, target, page.value);
      if err.Some? {
        return;
      }
      first := first + PageStep;
    }
  }
}

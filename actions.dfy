/**
 * The action dispatcher of processMessage (cmd/gmail-blade/main.go:404-447):
 * runs the matched actions in order against one message and stops at the
 * first that fails.
 */
module Actions {
  import opened Wrappers
  import opened Text
  import opened Errors
  import opened Mail
  import opened Effects
  import opened GitHub
  import opened Patterns
  import opened Review

  /** The mailbox `delete` moves a message to. */
  const Trash: string := "[Gmail]/Trash"

  /** What an action string asks for, in the order the dispatcher tests its forms. */
  datatype Kind =
    | Delete
    | LabelAs(name: string)
    | BadLabel
    | MoveTo(mailbox: string)
    | BadMoveTo
    | GitHubReview
    | Unknown

  function Classify(action: string, approvalEnabled: bool): Kind {
    if action == "delete" then Delete
    else if HasPrefix(action, "label ") then
      match LabelName(action)
      case Some(name) => LabelAs(name)
      case None => BadLabel
    else if HasPrefix(action, "move to ") then
      match MoveToName(action)
      case Some(mailbox) => MoveTo(mailbox)
      case None => BadMoveTo
    else if approvalEnabled && RequestsReview(action) then GitHubReview
    else Unknown
  }

  const UnknownActionMessage: string := "Unknown action"

  /** One action against the message `uid`, given the prefetched data. */
  function Step(o: Oracle, policy: ApprovalPolicy, uid: UID, data: map<string, PullRequest>, action: string, h: seq<Event>): Outcome {
    match Classify(action, policy.enabled)
    case Delete =>
      var h1 := h + [Move({uid}, Trash)];
      Outcome(h1, WrapOption(o.store(h1), "move email to trash"))
    case LabelAs(name) =>
      var h1 := h + [Copy({uid}, name)];
      Outcome(h1, WrapOption(o.store(h1), "copy email to label " + Quote(name)))
    case BadLabel =>
      Outcome(h, Some(New("invalid label action format " + Quote(action))))
    case MoveTo(mailbox) =>
      var h1 := h + [Move({uid}, mailbox)];
      Outcome(h1, WrapOption(o.store(h1), "move email to mailbox " + Quote(mailbox)))
    case BadMoveTo =>
      Outcome(h, Some(New("invalid move to action format " + Quote(action))))
    case GitHubReview =>
      var r := ReviewSpec(o, policy, data, h);
      Outcome(r.trace, WrapOption(r.err, "process GitHub review action"))
    case Unknown =>
      Outcome(h + [Log(WarnLevel, UnknownActionMessage)], None)
  }

  /** The actions in order; the first error ends the dispatch and is its result. */
  function Dispatch(o: Oracle, policy: ApprovalPolicy, uid: UID, data: map<string, PullRequest>, actions: seq<string>, h: seq<Event>): Outcome
    decreases |actions|
  {
    if actions == [] then Outcome(h, None)
    else
      var s := Step(o, policy, uid, data, actions[0], h);
      if s.err.Some? then s else Dispatch(o, policy, uid, data, actions[1..], s.trace)
  }

  // ---------------------------------------------------------------- classification

  /** `label "X"` labels with X and `move to "X"` moves to X, whatever the approval setting. */
  lemma ClassifyQuoted(name: string, enabled: bool)
    requires '"' !in name
    ensures Classify("label \"" + name + "\"", enabled) == LabelAs(name)
    ensures Classify("move to \"" + name + "\"", enabled) == MoveTo(name)
  {
    LabelRoundTrip(name);
    MoveToRoundTrip(name);
    var l := "label \"" + name + "\"";
    var m := "move to \"" + name + "\"";
    assert l[..6] == "label " && l != "delete";
    assert m[..8] == "move to " && m != "delete" && m[0] == 'm' && !HasPrefix(m, "label ");
  }

  /** A GitHub review is only ever dispatched with approval enabled. */
  lemma ReviewNeedsApproval(action: string, enabled: bool)
    ensures Classify(action, enabled) == GitHubReview ==> enabled && RequestsReview(action)
    ensures !enabled ==> Classify(action, enabled) != GitHubReview
  {
  }

  // ---------------------------------------------------------------- one step

  /** `delete` is a move of the message to the trash. */
  lemma DeleteMovesToTrash(o: Oracle, policy: ApprovalPolicy, uid: UID, data: map<string, PullRequest>, h: seq<Event>)
    ensures var s := Step(o, policy, uid, data, "delete", h);
      s.trace == h + [Move({uid}, Trash)] && (s.err.Some? <==> o.store(s.trace).Some?)
  {
  }

  /** An unknown action is logged as a warning and skipped. */
  lemma UnknownIsSkipped(o: Oracle, policy: ApprovalPolicy, uid: UID, data: map<string, PullRequest>, action: string, h: seq<Event>)
    requires Classify(action, policy.enabled) == Unknown
    ensures Step(o, policy, uid, data, action, h) == Outcome(h + [Log(WarnLevel, UnknownActionMessage)], None)
  {
  }

  /** A `label ` or `move to ` action without a quoted name is an error, and does nothing. */
  lemma MalformedIsError(o: Oracle, policy: ApprovalPolicy, uid: UID, data: map<string, PullRequest>, action: string, h: seq<Event>)
    requires action != "delete"
    requires HasPrefix(action, "label ") || HasPrefix(action, "move to ")
    requires (HasPrefix(action, "label ") ==> LabelName(action).None?)
    requires (!HasPrefix(action, "label ") ==> MoveToName(action).None?)
    ensures var s := Step(o, policy, uid, data, action, h);
      s.trace == h && s.err.Some?
  {
  }

  /** What one step may add to the trace. */
  predicate StepEvent(e: Event, uid: UID, policy: ApprovalPolicy) {
    match e
    case Move(uids, _) => uids == {uid}
    case Copy(uids, _) => uids == {uid}
    case Log(level, message) => level == WarnLevel && message == UnknownActionMessage
    case _ => policy.enabled && IsGitHubCall(e)
  }

  /**
   * A step continues the trace with at most three events: a move or copy of
   * this message alone, a warning, or, with approval enabled, GitHub calls.
   */
  lemma StepEvents(o: Oracle, policy: ApprovalPolicy, uid: UID, data: map<string, PullRequest>, action: string, h: seq<Event>)
    ensures var s := Step(o, policy, uid, data, action, h);
      && Extends(h, s.trace) && |s.trace| <= |h| + 3
      && forall k | |h| <= k < |s.trace| :: StepEvent(s.trace[k], uid, policy)
  {
    if Classify(action, policy.enabled) == GitHubReview {
      ReviewCalls(o, policy, data, h);
    }
  }

  // ---------------------------------------------------------------- the whole list

  /** Dispatching `a + b` is dispatching `a`, then `b` unless `a` failed. */
  lemma {:induction false} DispatchAppend(o: Oracle, policy: ApprovalPolicy, uid: UID, data: map<string, PullRequest>,
                                          a: seq<string>, b: seq<string>, h: seq<Event>)
    ensures var d := Dispatch(o, policy, uid, data, a, h);
      Dispatch(o, policy, uid, data, a + b, h) ==
        if d.err.Some? then d else Dispatch(o, policy, uid, data, b, d.trace)
    decreases |a|
  {
    if a == [] {
      assert a + b == b;
    } else {
      assert (a + b)[0] == a[0] && (a + b)[1..] == a[1..] + b;
      var s := Step(o, policy, uid, data, a[0], h);
      if s.err.None? {
        DispatchAppend(o, policy, uid, data, a[1..], b, s.trace);
      }
    }
  }

  /** Every action before `actions[k]` succeeded, and the dispatch ends with the step of `actions[k]`. */
  predicate FailsAt(o: Oracle, policy: ApprovalPolicy, uid: UID, data: map<string, PullRequest>,
                    actions: seq<string>, h: seq<Event>, k: nat)
    requires k < |actions|
  {
    var before := Dispatch(o, policy, uid, data, actions[..k], h);
    before.err.None? && Step(o, policy, uid, data, actions[k], before.trace) == Dispatch(o, policy, uid, data, actions, h)
  }

  /** A failed dispatch failed at some action, and nothing after that action ran. */
  lemma {:induction false} DispatchFailsAt(o: Oracle, policy: ApprovalPolicy, uid: UID, data: map<string, PullRequest>,
                                           actions: seq<string>, h: seq<Event>)
    requires Dispatch(o, policy, uid, data, actions, h).err.Some?
    ensures exists k | 0 <= k < |actions| :: FailsAt(o, policy, uid, data, actions, h, k)
    decreases |actions|
  {
    var s := Step(o, policy, uid, data, actions[0], h);
    if s.err.Some? {
      assert actions[..0] == [];
      assert FailsAt(o, policy, uid, data, actions, h, 0);
    } else {
      var rest := actions[1..];
      DispatchFailsAt(o, policy, uid, data, rest, s.trace);
      var k :| 0 <= k < |rest| && FailsAt(o, policy, uid, data, rest, s.trace, k);
      var prefix := actions[..k + 1];
      assert prefix[0] == actions[0] && prefix[1..] == rest[..k];
      assert actions[k + 1] == rest[k];
      assert FailsAt(o, policy, uid, data, actions, h, k + 1);
    }
  }

  /**
   * A dispatch continues the trace only with what its steps add: moves and
   * copies of this message alone, warnings, and GitHub calls only with
   * approval enabled.
   */
  lemma {:induction false} DispatchEvents(o: Oracle, policy: ApprovalPolicy, uid: UID, data: map<string, PullRequest>,
                                          actions: seq<string>, h: seq<Event>)
    ensures var d := Dispatch(o, policy, uid, data, actions, h);
      && Extends(h, d.trace) && |d.trace| <= |h| + 3 * |actions|
      && forall k | |h| <= k < |d.trace| :: StepEvent(d.trace[k], uid, policy)
    decreases |actions|
  {
    if actions != [] {
      var s := Step(o, policy, uid, data, actions[0], h);
      StepEvents(o, policy, uid, data, actions[0], h);
      if s.err.None? {
        DispatchEvents(o, policy, uid, data, actions[1..], s.trace);
        var d := Dispatch(o, policy, uid, data, actions[1..], s.trace);
        ExtendsTrans(h, s.trace, d.trace);
        forall k | |h| <= k < |d.trace|
          ensures StepEvent(d.trace[k], uid, policy)
        {
          if k < |s.trace| {
            assert d.trace[k] == d.trace[..|s.trace|][k] == s.trace[k];
          }
        }
      }
    }
  }

  /** The dispatch loop: the outcome so far continued by the actions still to run. */
  method DispatchActions(w: World, policy: ApprovalPolicy, uid: UID, data: map<string, PullRequest>, actions: seq<string>)
    returns (err: Option<Error>)
    modifies w
    ensures Outcome(w.trace, err) == Dispatch(w.oracle, policy, uid, data, actions, old(w.trace))
  {
    ghost var goal := Dispatch(w.oracle, policy, uid, data, actions, w.trace);
    assert actions[0..] == actions;
    for i := 0 to |actions|
      invariant goal == Dispatch(w.oracle, policy, uid, data, actions[i..], w.trace)
    {
      assert actions[i..][1..] == actions[i + 1..];
      err := ApplyAction(w, policy, uid, data, actions[i]);
      if err.Some? {
        return;
      }
    }
    assert actions[|actions|..] == [];
    err := None;
  }

  /** One turn of the dispatch loop. */
  method ApplyAction(w: World, policy: ApprovalPolicy, uid: UID, data: map<string, PullRequest>, action: string)
    returns (err: Option<Error>)
    modifies w
    ensures Outcome(w.trace, err) == Step(w.oracle, policy, uid, data, action, old(w.trace))
  {
    match Classify(action, policy.enabled)
    case Delete =>
      var stored := w.Store(Move({uid}, Trash));
      err := WrapOption(stored, "move email to trash");
    case LabelAs(name) =>
      var stored := w.Store(Copy({uid}, name));
      err := WrapOption(stored, "copy email to label " + Quote(name));
    case BadLabel =>
      err := Some(New("invalid label action format " + Quote(action)));
    case MoveTo(mailbox) =>
      var stored := w.Store(Move({uid}, mailbox));
      err := WrapOption(stored, "move email to mailbox " + Quote(mailbox));
    case BadMoveTo =>
      err := Some(New("invalid move to action format " + Quote(action)));
    case GitHubReview =>
      var reviewed := ProcessReview(w, policy, data);
      err := WrapOption(reviewed, "process GitHub review action");
    case Unknown =>
      w.Emit(Log(WarnLevel, UnknownActionMessage));
      err := None;
  }
}

/**
 * processGitHubReview (cmd/gmail-blade/github.go:100-148): approves the
 * prefetched pull request on GitHub when its repository and author are
 * allowed and the authenticated user has not approved it yet.
 */
module Review {
  import opened Wrappers
  import opened Text
  import opened Errors
  import opened Effects
  import opened GitHub

  /** The approval settings: whether approval is on, and its two allow-lists. */
  datatype ApprovalPolicy = ApprovalPolicy(enabled: bool, allowedRepositories: seq<string>, allowedUsernames: seq<string>)

  const ApproveEvent: string := "APPROVE"
  const ApprovedState: string := "APPROVED"

  function FullName(pr: PullRequest): string {
    pr.owner + "/" + pr.repo
  }

  /** `owner/repo#number`, as the error texts name a pull request. */
  function Label(pr: PullRequest): string {
    FullName(pr) + "#" + NatToDecimal(pr.number)
  }

  /** The pull request passes both allow-lists. */
  predicate Allowed(policy: ApprovalPolicy, pr: PullRequest) {
    FullName(pr) in policy.allowedRepositories && pr.author in policy.allowedUsernames
  }

  /** Some review of `login` approves. */
  predicate ApprovedBy(reviews: seq<Review>, login: string) {
    exists i :: 0 <= i < |reviews| && reviews[i].login == login && reviews[i].state == ApprovedState
  }

  function ReviewSpec(o: Oracle, policy: ApprovalPolicy, data: map<string, PullRequest>, h: seq<Event>): Outcome {
    if PrefetchKey !in data then Outcome(h, Some(New("invalid GitHub pull request prefetch data type")))
    else
      var pr := data[PrefetchKey];
      if FullName(pr) !in policy.allowedRepositories then Outcome(h, None)
      else if pr.author !in policy.allowedUsernames then Outcome(h, None)
      else
        var h1 := h + [ListReviews(pr.owner, pr.repo, pr.number)];
        match o.reviews(h1)
        case Failure(e) => Outcome(h1, Some(Wrap(e, "list reviews for GitHub pull request " + Label(pr))))
        case Success(reviews) =>
          var h2 := h1 + [GetCurrentUser];
          match o.currentLogin(h2)
          case Failure(e) => Outcome(h2, Some(Wrap(e, "get current user")))
          case Success(login) =>
            if ApprovedBy(reviews, login) then Outcome(h2, None)
            else
              var h3 := h2 + [CreateReview(pr.owner, pr.repo, pr.number, ApproveEvent)];
              Outcome(h3, WrapOption(o.createReview(h3), "approve GitHub pull request " + Label(pr)))
  }

  /** Without prefetched data the action fails, and nothing is called. */
  lemma ReviewNeedsData(o: Oracle, policy: ApprovalPolicy, data: map<string, PullRequest>, h: seq<Event>)
    ensures PrefetchKey !in data <==>
      ReviewSpec(o, policy, data, h) == Outcome(h, Some(New("invalid GitHub pull request prefetch data type")))
  {
  }

  /** A pull request outside either allow-list is skipped silently, with no call to GitHub. */
  lemma ReviewSkipsDisallowed(o: Oracle, policy: ApprovalPolicy, data: map<string, PullRequest>, h: seq<Event>)
    requires PrefetchKey in data && !Allowed(policy, data[PrefetchKey])
    ensures ReviewSpec(o, policy, data, h) == Outcome(h, None)
  {
  }

  /**
   * An approval is submitted exactly when the pull request is allowed, both
   * lookups succeed and no review of the current user approves it yet; it is
   * the last event, for that pull request.
   */
  lemma ReviewApprovesWhen(o: Oracle, policy: ApprovalPolicy, data: map<string, PullRequest>, h: seq<Event>)
    ensures var out := ReviewSpec(o, policy, data, h);
      (exists k | |h| <= k < |out.trace| :: out.trace[k].CreateReview?) <==>
        && PrefetchKey in data && Allowed(policy, data[PrefetchKey])
        && var pr := data[PrefetchKey];
           var h1 := h + [ListReviews(pr.owner, pr.repo, pr.number)];
           var h2 := h1 + [GetCurrentUser];
           && o.reviews(h1).Success? && o.currentLogin(h2).Success?
           && !ApprovedBy(o.reviews(h1).value, o.currentLogin(h2).value)
           && out.trace == h2 + [CreateReview(pr.owner, pr.repo, pr.number, ApproveEvent)]
  {
    var out := ReviewSpec(o, policy, data, h);
    if PrefetchKey in data && Allowed(policy, data[PrefetchKey]) {
      var pr := data[PrefetchKey];
      var h1 := h + [ListReviews(pr.owner, pr.repo, pr.number)];
      var h2 := h1 + [GetCurrentUser];
      if o.reviews(h1).Success? && o.currentLogin(h2).Success? && !ApprovedBy(o.reviews(h1).value, o.currentLogin(h2).value) {
        assert out.trace[|h2|].CreateReview?;
      } else if o.reviews(h1).Success? {
        assert out.trace == h2 && h2[|h|] == ListReviews(pr.owner, pr.repo, pr.number);
      }
    }
  }

  /** A failed review listing ends the action with its error, wrapped with the pull request's name; nothing else is called. */
  lemma ReviewListFails(o: Oracle, policy: ApprovalPolicy, data: map<string, PullRequest>, h: seq<Event>)
    requires PrefetchKey in data && Allowed(policy, data[PrefetchKey])
    ensures var pr := data[PrefetchKey];
      var h1 := h + [ListReviews(pr.owner, pr.repo, pr.number)];
      o.reviews(h1).Failure? ==>
        ReviewSpec(o, policy, data, h) ==
          Outcome(h1, Some(Wrap(o.reviews(h1).error, "list reviews for GitHub pull request " + Label(pr))))
  {
  }

  /** A failed current-user lookup ends the action with its error, wrapped; no review is created. */
  lemma ReviewUserFails(o: Oracle, policy: ApprovalPolicy, data: map<string, PullRequest>, h: seq<Event>)
    requires PrefetchKey in data && Allowed(policy, data[PrefetchKey])
    ensures var pr := data[PrefetchKey];
      var h1 := h + [ListReviews(pr.owner, pr.repo, pr.number)];
      var h2 := h1 + [GetCurrentUser];
      o.reviews(h1).Success? && o.currentLogin(h2).Failure? ==>
        ReviewSpec(o, policy, data, h) == Outcome(h2, Some(Wrap(o.currentLogin(h2).error, "get current user")))
  {
  }

  /** A failed approval returns its error, wrapped with the pull request's name; without one the action succeeds. */
  lemma ReviewCreateFails(o: Oracle, policy: ApprovalPolicy, data: map<string, PullRequest>, h: seq<Event>)
    requires PrefetchKey in data && Allowed(policy, data[PrefetchKey])
    ensures var pr := data[PrefetchKey];
      var h1 := h + [ListReviews(pr.owner, pr.repo, pr.number)];
      var h2 := h1 + [GetCurrentUser];
      var h3 := h2 + [CreateReview(pr.owner, pr.repo, pr.number, ApproveEvent)];
      o.reviews(h1).Success? && o.currentLogin(h2).Success? && !ApprovedBy(o.reviews(h1).value, o.currentLogin(h2).value) ==>
        && ReviewSpec(o, policy, data, h).trace == h3
        && (o.createReview(h3).Some? ==>
              ReviewSpec(o, policy, data, h).err == Some(Wrap(o.createReview(h3).value, "approve GitHub pull request " + Label(pr))))
        && (o.createReview(h3).None? ==> ReviewSpec(o, policy, data, h).err.None?)
  {
  }

  /** The action only reads and writes on GitHub, at most three calls, and never touches the mail store. */
  lemma ReviewCalls(o: Oracle, policy: ApprovalPolicy, data: map<string, PullRequest>, h: seq<Event>)
    ensures var out := ReviewSpec(o, policy, data, h);
      && Extends(h, out.trace) && |out.trace| <= |h| + 3
      && forall k | |h| <= k < |out.trace| :: IsGitHubCall(out.trace[k])
  {
  }

  method ProcessReview(w: World, policy: ApprovalPolicy, data: map<string, PullRequest>) returns (err: Option<Error>)
    modifies w
    ensures Outcome(w.trace, err) == ReviewSpec(w.oracle, policy, data, old(w.trace))
  {
    if PrefetchKey !in data {
      return Some(New("invalid GitHub pull request prefetch data type"));
    }
    var pr := data[PrefetchKey];
    var repoFullName := pr.owner + "/" + pr.repo;
    if repoFullName !in policy.allowedRepositories {
      return None;
    }
    if pr.author !in policy.allowedUsernames {
      return None;
    }
    var prName := repoFullName + "#" + NatToDecimal(pr.number);
    var reviews := w.ListReviews(pr.owner, pr.repo, pr.number);
    if reviews.Failure? {
      return Some(Wrap(reviews.error, "list reviews for GitHub pull request " + prName));
    }
    var currentUser := w.GetCurrentUser();
    if currentUser.Failure? {
      return Some(Wrap(currentUser.error, "get current user"));
    }
    var rs := reviews.value;
    for i := 0 to |rs|
      invariant !exists j :: 0 <= j < i && rs[j].login == currentUser.value && rs[j].state == ApprovedState
    {
      if rs[i].login == currentUser.value && rs[i].state == ApprovedState {
        return None;
      }
    }
    var created := w.CreateReview(pr.owner, pr.repo, pr.number, ApproveEvent);
    err := WrapOption(created, "approve GitHub pull request " + prName);
  }
}

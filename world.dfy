/**
 * The collaborators the core calls but does not implement: the IMAP session,
 * the GitHub API, the logger, the clock and the cancellation signal. Every
 * call the core makes is recorded as an event, and every reply is a function
 * of the events so far, the call itself included. An oracle thereby stands
 * for any behaviour of the outside world.
 */
module Effects {
  import opened Wrappers
  import opened Errors
  import opened Mail

  /** One review of a pull request, as the review listing returns it. */
  datatype Review = Review(login: string, state: string)

  /** The reply to getting a pull request: the author's login and the remaining rate-limit quota. */
  datatype PullRequestInfo = PullRequestInfo(author: string, rateRemaining: int)

  /** The log levels whose records the model keeps; debug and info records are not modelled. */
  datatype Level = WarnLevel | ErrorLevel

  datatype Event =
    | Connect
    | Select(mailbox: string, readOnly: bool)
    | Fetch(first: nat, last: nat)
    | Move(uids: set<UID>, mailbox: string)
    | Copy(uids: set<UID>, mailbox: string)
    | GetPullRequest(owner: string, repo: string, number: nat)
    | ListReviews(owner: string, repo: string, number: nat)
    | GetCurrentUser
    | CreateReview(owner: string, repo: string, number: nat, review: string)
    | Log(level: Level, message: string)
    | Sleep(duration: int)

  /** An event that asks the mail store or GitHub to change something. */
  predicate IsMutation(e: Event) {
    e.Move? || e.Copy? || e.CreateReview?
  }

  /** A call to the GitHub API. */
  predicate IsGitHubCall(e: Event) {
    e.GetPullRequest? || e.ListReviews? || e.GetCurrentUser? || e.CreateReview?
  }

  /** What a step of the core leaves behind: the trace so far and the error it returns, if any. */
  datatype Outcome = Outcome(trace: seq<Event>, err: Option<Error>)

  /** `h2` continues `h`: the events of `h` come first, unchanged. */
  predicate Extends(h: seq<Event>, h2: seq<Event>) {
    |h| <= |h2| && h2[..|h|] == h
  }

  /** No event after `h` in `h2` changes the mail store or GitHub. */
  predicate NoMutationAfter(h: seq<Event>, h2: seq<Event>)
    requires Extends(h, h2)
  {
    forall k :: |h| <= k < |h2| ==> !IsMutation(h2[k])
  }

  /** Continuing is transitive. */
  lemma ExtendsTrans(h1: seq<Event>, h2: seq<Event>, h3: seq<Event>)
    requires Extends(h1, h2) && Extends(h2, h3)
    ensures Extends(h1, h3)
  {
    assert h3[..|h1|] == h3[..|h2|][..|h1|];
  }

  /**
   * The replies of the outside world, each given the trace that ends with the
   * call being answered. `cancelled` says whether the run's context is done
   * at that point; `mailboxSize` bounds the sequence numbers the inbox holds.
   */
  datatype Oracle = Oracle(
    connect: seq<Event> -> Option<Error>,
    select: seq<Event> -> Option<Error>,
    fetch: seq<Event> -> Result<seq<Message>, Error>,
    store: seq<Event> -> Option<Error>,
    pullRequest: seq<Event> -> Result<PullRequestInfo, Error>,
    reviews: seq<Event> -> Result<seq<Review>, Error>,
    currentLogin: seq<Event> -> Result<string, Error>,
    createReview: seq<Event> -> Option<Error>,
    cancelled: seq<Event> -> bool,
    mailboxSize: nat)

  /** A fetch that starts past the last message finds nothing (or fails). */
  ghost predicate Finite(o: Oracle) {
    forall h: seq<Event>, first: nat, last: nat | first > o.mailboxSize ::
      var r := o.fetch(h + [Fetch(first, last)]);
      r.Failure? || r.value == []
  }

  /** Once the context is done it stays done: `ctx.Done()`, once closed, stays closed. */
  ghost predicate CancelStays(o: Oracle) {
    forall h: seq<Event>, t: seq<Event> | o.cancelled(h) :: o.cancelled(h + t)
  }

  /** The outside world as the imperative code talks to it. */
  class World {
    const oracle: Oracle
    var trace: seq<Event>

    constructor (o: Oracle, h: seq<Event>)
      ensures oracle == o && trace == h
    {
      oracle := o;
      trace := h;
    }

    /** Whether the context is done, at this point of the trace. */
    function Cancelled(): bool
      reads this
    {
      oracle.cancelled(trace)
    }

    /** Records a call that gets no reply, such as a log record or a sleep. */
    method Emit(e: Event)
      modifies this
      ensures trace == old(trace) + [e]
    {
      trace := trace + [e];
    }

    method Connect() returns (err: Option<Error>)
      modifies this
      ensures trace == old(trace) + [Event.Connect] && err == oracle.connect(trace)
    {
      trace := trace + [Event.Connect];
      err := oracle.connect(trace);
    }

    method Select(mailbox: string, readOnly: bool) returns (err: Option<Error>)
      modifies this
      ensures trace == old(trace) + [Event.Select(mailbox, readOnly)] && err == oracle.select(trace)
    {
      trace := trace + [Event.Select(mailbox, readOnly)];
      err := oracle.select(trace);
    }

    method Fetch(first: nat, last: nat) returns (r: Result<seq<Message>, Error>)
      modifies this
      ensures trace == old(trace) + [Event.Fetch(first, last)] && r == oracle.fetch(trace)
    {
      trace := trace + [Event.Fetch(first, last)];
      r := oracle.fetch(trace);
    }

    /** A MOVE or COPY command; `e` is the command. */
    method Store(e: Event) returns (err: Option<Error>)
      requires e.Move? || e.Copy?
      modifies this
      ensures trace == old(trace) + [e] && err == oracle.store(trace)
    {
      trace := trace + [e];
      err := oracle.store(trace);
    }

    method GetPullRequest(owner: string, repo: string, number: nat) returns (r: Result<PullRequestInfo, Error>)
      modifies this
      ensures trace == old(trace) + [Event.GetPullRequest(owner, repo, number)] && r == oracle.pullRequest(trace)
    {
      trace := trace + [Event.GetPullRequest(owner, repo, number)];
      r := oracle.pullRequest(trace);
    }

    method ListReviews(owner: string, repo: string, number: nat) returns (r: Result<seq<Review>, Error>)
      modifies this
      ensures trace == old(trace) + [Event.ListReviews(owner, repo, number)] && r == oracle.reviews(trace)
    {
      trace := trace + [Event.ListReviews(owner, repo, number)];
      r := oracle.reviews(trace);
    }

    method GetCurrentUser() returns (r: Result<string, Error>)
      modifies this
      ensures trace == old(trace) + [Event.GetCurrentUser] && r == oracle.currentLogin(trace)
    {
      trace := trace + [Event.GetCurrentUser];
      r := oracle.currentLogin(trace);
    }

    method CreateReview(owner: string, repo: string, number: nat, review: string) returns (err: Option<Error>)
      modifies this
      ensures trace == old(trace) + [Event.CreateReview(owner, repo, number, review)] && err == oracle.createReview(trace)
    {
      trace := trace + [Event.CreateReview(owner, repo, number, review)];
      err := oracle.createReview(trace);
    }
  }
}

/**
 * Go error values as the core sees them: the text `err.Error()` returns and
 * whether `errors.Is(err, context.Canceled)` holds. Wrapping with
 * pkg/errors prefixes the text and keeps the wrapped error reachable.
 */
module Errors {
  import opened Wrappers
  import opened Text

  datatype Error = Error(text: string, canceled: bool)

  /** errors.New / errors.Errorf */
  function New(text: string): Error {
    Error(text, false)
  }

  /** errors.Wrap(e, context): the text becomes "context: text". */
  function Wrap(e: Error, context: string): Error {
    Error(context + ": " + e.text, e.canceled)
  }

  /** Wraps an error result and leaves success alone. */
  function WrapOption(e: Option<Error>, context: string): (r: Option<Error>)
    ensures r.Some? == e.Some?
  {
    if e.Some? then Some(Wrap(e.value, context)) else None
  }

  /** context.Canceled, which ctx.Err() returns once the context is cancelled. */
  const Canceled: Error := Error("context canceled", true)

  /** An error wrapped with a context that does not start with `c` is not context.Canceled itself. */
  lemma WrapIsNotCanceled(e: Error, context: string)
    requires context != [] && context[0] != 'c'
    ensures Wrap(e, context) != Canceled
  {
    assert Wrap(e, context).text[0] == context[0];
  }

  /** Wrapping keeps every substring of the wrapped text and its cancellation. */
  lemma WrapKeepsText(e: Error, context: string, sub: string)
    requires Contains(e.text, sub)
    ensures Contains(Wrap(e, context).text, sub) && Wrap(e, context).canceled == e.canceled
  {
    ContainsUnderPrefix(context + ": ", e.text, sub);
    assert Wrap(e, context).text == (context + ": ") + e.text;
  }
}

/** The transient-error classifier of the server loop (cmd/gmail-blade/main.go:171-195). */
module Transient {
  import opened Wrappers
  import opened Text
  import opened Errors

  /** Error texts that mark a failure as likely to go away by itself. */
  const Catalogue: seq<string> := [
    "unexpected EOF",
    "connection reset by peer",
    "i/o timeout",
    "use of closed network connection",
    "dial IMAP server: EOF",
    "imap: NO Lookup failed",
    "imap: NO System Error (Failure)"
  ]

  /** The search loop: some pattern of `patterns[i..]` occurs in `text`. */
  function AnyPatternFrom(text: string, patterns: seq<string>, i: nat): (r: bool)
    requires i <= |patterns|
    ensures r <==> exists k :: i <= k < |patterns| && Contains(text, patterns[k])
    decreases |patterns| - i
  {
    if i == |patterns| then false
    else Contains(text, patterns[i]) || AnyPatternFrom(text, patterns, i + 1)
  }

  /**
   * isTransientError: a nil error is not transient; any other error is
   * transient exactly when some catalogue entry is a substring of its text.
   */
  function IsTransientError(err: Option<Error>): (r: bool)
    ensures err.None? ==> !r
    ensures err.Some? ==> (r <==> exists k :: 0 <= k < |Catalogue| && Contains(err.value.text, Catalogue[k]))
  {
    err.Some? && AnyPatternFrom(err.value.text, Catalogue, 0)
  }

  /** Wrapping a transient error (as runOnce does) leaves it transient. */
  lemma WrapKeepsTransient(e: Error, context: string)
    requires IsTransientError(Some(e))
    ensures IsTransientError(Some(Wrap(e, context)))
  {
    var k :| 0 <= k < |Catalogue| && Contains(e.text, Catalogue[k]);
    WrapKeepsText(e, context, Catalogue[k]);
  }
}

# gmail-blade, modelled in Dafny

gmail-blade watches a Gmail inbox over IMAP and applies user-written filters
to every unread message. A filter is a condition over the message (sender,
recipients, subject, body), optionally enriched by a *prefetch* of the GitHub
pull request a notification mail links to. The actions of every matching
filter run in order:

- `delete` moves the message to `[Gmail]/Trash`;
- `label "X"` copies it to label X;
- `move to "X"` moves it to mailbox X;
- `github review` approves the linked pull request when its repository and
  its author are on the allow lists.

A server mode rescans the inbox in a loop and remembers the UIDs it has
processed. After transient network failures it backs off, up to one minute.

The model covers `cmd/gmail-blade/main.go` and `cmd/gmail-blade/github.go`:

- the transient-error classifier;
- the `--uids` parser;
- the paged inbox scan with its ledger of processed UIDs and its target filter;
- per-message processing: normalisation, the filter loop with its prefetches,
  the match test and the action dispatcher;
- the server's backoff and sleep computation;
- the pull request's environment form, the notification URL parser, the
  process-wide pull request cache, and the review approval.

Everything outside the program is an `Oracle`: the IMAP session, the GitHub
API, the logger, the clock and the cancellation signal. Every call the core
makes is appended to a trace of `Event`s. Each reply is a function of the
trace up to and including that call. A model run is therefore a function of
its inputs and the oracle, and properties hold for every behaviour of the
outside world.

Layout, one module per file, except `errors.dfy`, which holds two:

- `wrappers.dfy`: `Option` and `Result`.
- `text.dfy`: `strings.Split`, `TrimSpace`, `HasPrefix`, decimal printing and
  parsing, and `%q` quoting, as the core uses them.
- `errors.dfy`: module `Errors` (error values and wrapping) and module
  `Transient` (the transient classifier).
- `expr.dfy`: what a condition returns, and the match test.
- `mail.dfy`: the normalised message attributes.
- `uids.dfy`: the UID-list parser.
- `patterns.dfy`: the action and prefetch regular expressions.
- `github.dfy`: the pull request's environment form, the URL matcher and
  parser, and the cache key.
- `world.dfy`: events, the oracle, and the `World` class the imperative code
  talks to.
- `prefetch.dfy`: the pull request cache.
- `review.dfy`: the review approval.
- `config.dfy`: filters and settings.
- `actions.dfy`: the dispatcher.
- `engine.dfy`: `processMessage`.
- `scan.dfy`: `runOnce`, with the `Ledger` class.
- `server.dfy`: `runServer`.

The pure functions (`UidSet`, `ParseNotification`, `PrefetchSpec`,
`ReviewSpec`, `Step`, `Dispatch`, `GatherFrom`, `ProcessSpec`, `ScanSpec`,
`Serve`) are the specification. Each loop of the Go code is an imperative
method, proved equal to its function:

- `ParseUids`;
- `Normalise`;
- `BuildEnv`;
- `PrefetchFilter`;
- `GatherActions`;
- `DispatchActions`;
- `ProcessMessage`;
- `ScanPage`;
- `RunOnce`;
- `ServeOnce`;
- `RunServer`;
- the `PullRequestCache` class.

The properties are lemmas about those functions.

## Model

| member | source | states |
|---|---|---|
| Errors.WrapOption | cmd/gmail-blade/main.go:408-411 | Wrapping the result of an IMAP command keeps whether it failed: a nil reply stays nil, an error stays an error |
| Errors.WrapKeepsText | cmd/gmail-blade/main.go:184-195 | A wrapped error's message still contains every substring of the original, and the wrap keeps whether the error is a cancellation |
| Errors.WrapIsNotCanceled | cmd/gmail-blade/main.go:471 | A wrapped error whose context does not start with "c" is never context.Canceled itself |
| Transient.AnyPatternFrom | cmd/gmail-blade/main.go:189-193 | The scan over the catalogue is true exactly when some entry from the given index on is a substring of the message |
| Transient.IsTransientError | cmd/gmail-blade/main.go:171-195 | A nil error is never transient; an error is transient exactly when its message contains one of the seven catalogue strings |
| Transient.WrapKeepsTransient | cmd/gmail-blade/main.go:184-195 | Adding context to a transient error (as runOnce does to every error) keeps it transient |
| Expr.MatchingResults | cmd/gmail-blade/main.go:375 | The `%v == "true"` test accepts exactly two results: boolean true and the string "true" |
| Mail.ConcatAppend | cmd/gmail-blade/main.go:333-336 | Concatenating body sections distributes over splitting the section list |
| Mail.SectionInBody | cmd/gmail-blade/main.go:333-336 | Every body section appears intact in the body, right after the sections before it |
| Mail.FromLists | cmd/gmail-blade/main.go:300-305 | One sender entry per From address, `mailbox@host` and the display name at the same index |
| Mail.FormatAddresses | cmd/gmail-blade/main.go:307-320 | One `mailbox@host` string per address, in order |
| Mail.JoinBody | cmd/gmail-blade/main.go:333-336 | The body loop yields the concatenation of all sections in order |
| Mail.Normalise | cmd/gmail-blade/main.go:300-336 | The normalised attributes are the address lists, names, subject and body the filter environment exposes |
| Text.ParseUint32OfDecimal | cmd/gmail-blade/main.go:205 | Every 32-bit number parses back from its decimal form |
| Text.NatToDecimalInjective | cmd/gmail-blade/github.go:74 | Distinct numbers print differently in decimal |
| Uids.UidSetAccepts | cmd/gmail-blade/main.go:197-212 | The list parses exactly when every comma-separated entry, trimmed, is blank or a decimal number below 2^32 |
| Uids.UidSetValues | cmd/gmail-blade/main.go:197-212 | A parsed set holds exactly the UIDs that some non-blank entry denotes |
| Uids.UidSetRejects | cmd/gmail-blade/main.go:200-208 | A rejected list is rejected for its first invalid entry; every entry before it is valid; the error carries that entry trimmed |
| Uids.UidSetStep | cmd/gmail-blade/main.go:200-210 | One loop step skips a blank entry, aborts on a non-number, and adds a number to the set otherwise |
| Uids.ParseUids | cmd/gmail-blade/main.go:197-212 | The imperative loop over the split input computes the specified result |
| Uids.BlankListIsEmpty | cmd/gmail-blade/main.go:199-204 | Blank entries are skipped: a list of blanks and commas parses to the empty set |
| Uids.PrintedEntry | cmd/gmail-blade/main.go:199-205 | The decimal form of a UID is comma-free, already trimmed, and parses back to that UID |
| Uids.Printed | cmd/gmail-blade/main.go:199 | Printing a UID sequence gives one entry per UID |
| Uids.PrintedValues | cmd/gmail-blade/main.go:197-212 | A sequence of printed UIDs parses to exactly the set of those UIDs |
| Uids.PrintedListRoundTrip | cmd/gmail-blade/main.go:197-212 | Joining printed UIDs with commas and parsing the result gives back exactly the set of those UIDs |
| Patterns.SpaceRun | cmd/gmail-blade/main.go:167-168 | The greedy `\s` run stays in the text, holds only whitespace, and stops at a non-space or the end |
| Patterns.QuotedAtSound | cmd/gmail-blade/main.go:165-166 | A capture at an index is free of `"` and sits between the literal and a closing quote there |
| Patterns.FirstQuotedSound | cmd/gmail-blade/main.go:413-414 | The capture FindStringSubmatch returns is `"`-free; its match lies in the action text and no match starts earlier |
| Patterns.FirstQuotedNone | cmd/gmail-blade/main.go:413-416 | With no match at any index, the pattern finds nothing |
| Patterns.FirstQuotedFinds | cmd/gmail-blade/main.go:413-414 | A match at some index is found, at that index or earlier |
| Patterns.FirstQuotedSomeIff | cmd/gmail-blade/main.go:413-416 | The pattern finds a name exactly when a match starts at some index |
| Patterns.QuotedRoundTrip | cmd/gmail-blade/main.go:165-166 | A text starting with the literal, a `"`-free name and a quote yields that name, whatever follows |
| Patterns.LabelRoundTrip | cmd/gmail-blade/main.go:165 | `label "X"` names label X |
| Patterns.MoveToRoundTrip | cmd/gmail-blade/main.go:166 | `move to "X"` names mailbox X |
| GitHub.Env | cmd/gmail-blade/github.go:24-31 | The pull request's namespace has exactly the keys owner, repo, number and author |
| GitHub.EnvRoundTrip | cmd/gmail-blade/github.go:24-31 | Every field of the pull request can be read back from its namespace under its own name |
| GitHub.RunWithout | cmd/gmail-blade/github.go:34 | The `[^/]+` run from an index stays within the text |
| GitHub.RunWithoutSpan | cmd/gmail-blade/github.go:34 | That run holds no `/` and stops at a `/` or at the end: it is maximal |
| GitHub.DigitRun | cmd/gmail-blade/github.go:34 | The `\d+` run from an index stays within the text |
| GitHub.DigitRunSpan | cmd/gmail-blade/github.go:34 | That run holds only digits and stops at a non-digit or at the end |
| GitHub.UrlAtFacts | cmd/gmail-blade/github.go:34 | A URL match has a non-empty, slash-free owner and repository and a non-empty digit string, and its full URL text occurs where it starts |
| GitHub.FirstUrlAt | cmd/gmail-blade/github.go:38 | The leftmost match starts at an index inside the text and is the match found there |
| GitHub.FirstUrlIsLeftmost | cmd/gmail-blade/github.go:38 | No match starts before the one FindStringSubmatch returns |
| GitHub.FirstUrlNone | cmd/gmail-blade/github.go:38-41 | With no match at any index, nothing is found |
| GitHub.FirstUrlFinds | cmd/gmail-blade/github.go:38 | A match at some index is found, at that index or before it |
| GitHub.HasPullRequestUrlIff | cmd/gmail-blade/main.go:345 | The body matches the URL pattern exactly when a match starts at some index |
| GitHub.UrlAtStart | cmd/gmail-blade/github.go:34 | A text that begins with a well-shaped URL, followed by anything but a digit, matches exactly that URL |
| GitHub.ParseNotificationRoundTrip | cmd/gmail-blade/github.go:37-50 | A notification that begins with a pull request's URL parses to that owner, repository and number |
| GitHub.ParseNotificationSound | cmd/gmail-blade/github.go:37-50 | A parsed pull request has a non-empty, slash-free owner and repository and a number that fits an `int`; its URL, with the digits as they appear in the body, occurs in the body |
| GitHub.ParseNotificationMissing | cmd/gmail-blade/github.go:38-41 | The "could not find" error is returned exactly for bodies without a pull request URL, that is, with no match at any index |
| GitHub.CacheKeyInjective | cmd/gmail-blade/github.go:74 | Distinct well-formed pull requests have distinct `owner/repo#number` cache keys |
| Prefetch.PrefetchKeepsCacheValid | cmd/gmail-blade/github.go:63-98 | Every cache entry stays stored under its own pull request's key, and the key names that pull request |
| Prefetch.PrefetchGrowsCache | cmd/gmail-blade/github.go:74-97 | A prefetch never changes or drops a cached entry; the only entry it adds is under the key of the body's pull request |
| Prefetch.PrefetchNamesMailPullRequest | cmd/gmail-blade/github.go:66-98 | A successful prefetch returns the pull request the body's URL names, from the cache or from GitHub |
| Prefetch.PrefetchCalls | cmd/gmail-blade/github.go:67-85 | A prefetch adds at most a pull request read and a low-quota warning; it calls GitHub exactly when the body parses and its key is not cached |
| Prefetch.PrefetchTwice | cmd/gmail-blade/github.go:74-77 | After a successful prefetch, prefetching the same body again is answered from the cache without any call and with the same result |
| Prefetch.PrefetchFailureKeepsCache | cmd/gmail-blade/github.go:66-81 | A failed prefetch leaves the cache as it was |
| Prefetch.PrefetchStoresReply | cmd/gmail-blade/github.go:78-97 | A pull request not yet cached is read from GitHub: a reply is returned and cached under the mail's key with the author it names; a failure is returned wrapped with the pull request's name, after one call and with the cache unchanged |
| Prefetch.PullRequestCache.constructor | cmd/gmail-blade/github.go:63 | The process-wide cache starts empty |
| Prefetch.PullRequestCache.Prefetch | cmd/gmail-blade/github.go:66-98 | The imperative prefetch produces the trace, cache and result of the specification |
| Review.ReviewNeedsData | cmd/gmail-blade/github.go:102-105 | A review fails with "invalid GitHub pull request prefetch data type", without a call, exactly when no pull request was prefetched |
| Review.ReviewSkipsDisallowed | cmd/gmail-blade/github.go:107-116 | A pull request outside the allowed repositories or authors is skipped, without a call and without an error |
| Review.ReviewApprovesWhen | cmd/gmail-blade/github.go:118-144 | A review is created exactly when the pull request is allowed, both the reviews listing and the current-user call succeed, and the current user has no APPROVED review yet; the calls come in that order |
| Review.ReviewListFails | cmd/gmail-blade/github.go:120-123 | A failed review listing ends the action with its error wrapped as "list reviews for GitHub pull request owner/repo#n", after that one call |
| Review.ReviewUserFails | cmd/gmail-blade/github.go:125-128 | A failed current-user call ends the action with its error wrapped as "get current user", before any review is created |
| Review.ReviewCreateFails | cmd/gmail-blade/github.go:137-146 | When the approval is submitted, a failure is returned wrapped as "approve GitHub pull request owner/repo#n" and a success returns no error |
| Review.ReviewCalls | cmd/gmail-blade/github.go:101-148 | A review only adds GitHub calls, at most three |
| Review.ProcessReview | cmd/gmail-blade/github.go:101-148 | The imperative review produces the trace and error of the specification |
| Actions.ClassifyQuoted | cmd/gmail-blade/main.go:412-430 | `label "X"` is a label action for X and `move to "X"` a move to X, whether approval is enabled or not |
| Actions.ReviewNeedsApproval | cmd/gmail-blade/main.go:438 | An action counts as a review only with approval enabled and `github review` in the text; with approval disabled there are no review actions |
| Actions.DeleteMovesToTrash | cmd/gmail-blade/main.go:405-411 | `delete` moves this message alone to `[Gmail]/Trash` and fails exactly when the move does |
| Actions.UnknownIsSkipped | cmd/gmail-blade/main.go:443-445 | An unrecognised action logs a warning and the dispatcher goes on |
| Actions.MalformedIsError | cmd/gmail-blade/main.go:412-429 | A `label ` or `move to ` action without a quoted name aborts with an error before any call |
| Actions.StepEvents | cmd/gmail-blade/main.go:404-445 | An action adds at most three events: a move or copy of this message only, the unknown-action warning, or GitHub calls when approval is enabled |
| Actions.DispatchAppend | cmd/gmail-blade/main.go:404-447 | Dispatching `a + b` dispatches `a`, then `b` only if `a` succeeded |
| Actions.DispatchFailsAt | cmd/gmail-blade/main.go:404-447 | A failed dispatch failed at one action: every action before it succeeded and nothing after it ran |
| Actions.DispatchEvents | cmd/gmail-blade/main.go:404-447 | The dispatch extends the trace by at most three events per action, each one allowed for a single action on this message |
| Actions.DispatchActions | cmd/gmail-blade/main.go:404-447 | The imperative dispatch loop produces the trace and error of the specification |
| Actions.ApplyAction | cmd/gmail-blade/main.go:405-445 | One imperative action step produces the trace and error of the specification |
| Engine.EnvOfContents | cmd/gmail-blade/main.go:356-369 | A condition sees `message` plus the prefetched pull request, if any, under its key; the pull request can be read back from it |
| Engine.BuildEnv | cmd/gmail-blade/main.go:356-369 | The imperative environment loop builds the specified environment |
| Engine.PrefetchAllIdle | cmd/gmail-blade/main.go:342-354 | Once the pull request is prefetched, later prefetches in the loop do nothing |
| Engine.PrefetchAllNeedsUrl | cmd/gmail-blade/main.go:344-345 | A body without a pull request URL prefetches nothing |
| Engine.PrefetchAllNeedsRequest | cmd/gmail-blade/main.go:343-344 | Prefetches none of which matches the `github pull request` pattern do nothing: trace, cache and data stay equal |
| Engine.PrefetchOneFails | cmd/gmail-blade/main.go:347-351 | A prefetch that runs and fails leaves the message's data and the cache unchanged, and its last event is the error log `Failed to execute GitHub pull request prefetch` |
| Engine.PrefetchOneEvents | cmd/gmail-blade/main.go:342-354 | One prefetch only reads from GitHub and logs |
| Engine.PrefetchAllEvents | cmd/gmail-blade/main.go:342-354 | A filter's prefetch loop only reads from GitHub and logs |
| Engine.PrefetchOneKeeps | cmd/gmail-blade/main.go:342-354 | One prefetch keeps the cache valid; the prefetched data holds at most the pull request the body names |
| Engine.PrefetchAllKeeps | cmd/gmail-blade/main.go:342-354 | A filter's prefetch loop keeps the same invariant |
| Engine.GatherFixedEnvironment | cmd/gmail-blade/main.go:340-382 | Without a pull request URL, or once the pull request is prefetched, every condition sees the same environment: the loop collects the actions of the matching filters up to the first halting match and leaves the data as it was, and the cache too when there is no URL |
| Engine.PrefetchAllData | cmd/gmail-blade/main.go:342-354 | A filter's prefetches either leave the data alone or add the pull request where none was |
| Engine.GatherSelects | cmd/gmail-blade/main.go:340-382 | For every body: either the data never changes and the actions are those selected by the fixed environment, or the pull request is prefetched at some filter k, the filters before k match against the environment without it and none of them halts, and the filters from k on match against the environment with it |
| Engine.HaltEndsGathering | cmd/gmail-blade/main.go:375-380 | A halting filter that matches ends the filter loop: later filters are not evaluated |
| Engine.GatherKeeps | cmd/gmail-blade/main.go:340-382 | The filter loop keeps the cache valid and the prefetched data limited to the body's own pull request |
| Engine.GatherEvents | cmd/gmail-blade/main.go:340-382 | The filter loop only reads from GitHub and logs, and keeps every action collected before it |
| Engine.ProcessKeepsCache | cmd/gmail-blade/main.go:338-382 | Processing keeps the cache valid; the pull request a review acts on is the one the message's body names |
| Engine.ProcessEffects | cmd/gmail-blade/main.go:294-447 | Processing adds only prefetch reads, logs and actions on this message; a read message adds nothing; a dry run, or a message no filter gives an action, neither fails nor changes the mailbox or GitHub |
| Engine.PrefetchFilter | cmd/gmail-blade/main.go:342-354 | The imperative prefetch loop produces the specified trace, cache and data |
| Engine.GatherActions | cmd/gmail-blade/main.go:338-382 | The imperative filter loop produces the specified trace, cache, data and actions |
| Engine.ProcessMessage | cmd/gmail-blade/main.go:294-448 | The imperative processMessage produces the specified trace, cache and error |
| Scan.ProcessKeeps | cmd/gmail-blade/main.go:278-282 | Processing one eligible message keeps the scan invariant, with or without recording its UID |
| Scan.ScanMessagesKeeps | cmd/gmail-blade/main.go:258-283 | The loop over a page keeps the scan invariant |
| Scan.ScanPagesKeeps | cmd/gmail-blade/main.go:231-284 | The page loop keeps the scan invariant: pages of 101 sequence numbers starting at 1, 101, 201 and so on, and actions only on messages outside the starting ledger and, given a target list, in it |
| Scan.ScanOpens | cmd/gmail-blade/main.go:215-229 | A scan's first new event is the connect; a failed connect ends it with the error wrapped as `get authenticated IMAP client` and nothing else done; after a successful connect the next event is the read-only select of INBOX, and a failed select ends the scan with the error wrapped as `select INBOX` |
| Scan.ScanKeeps | cmd/gmail-blade/main.go:214-286 | A scan extends the trace; its first new event is the connect and, once that succeeds, the next is the read-only select of INBOX, the only mailbox it ever selects; the ledger only grows, and only with target UIDs; the trace respects the invariant; the cache stays valid |
| Scan.DryScanChangesNothing | cmd/gmail-blade/main.go:214-286 | A dry-run scan never moves, copies or approves anything |
| Scan.ScanMessagesAppend | cmd/gmail-blade/main.go:258-283 | The loop over two runs of messages is the loop over the first, then, unless it failed, over the second |
| Scan.ScanMessagesLedger | cmd/gmail-blade/main.go:265-282 | A page adds to the ledger exactly the UIDs of the messages it reaches without error, does not skip, and for which processMessage returns no error |
| Scan.StopsAtFailure | cmd/gmail-blade/main.go:278-281 | The first failing message ends the page with its error wrapped as "uid n", and the ledger keeps only what was recorded before it |
| Scan.SkipAddsNothing | cmd/gmail-blade/main.go:265-275 | A message already in the ledger, or outside a non-empty target list, adds no event and changes neither cache nor ledger |
| Scan.PageFetchesAt | cmd/gmail-blade/main.go:231-240 | Page j of a run from `first` asks for sequence numbers first + 100 j to first + 100 (j + 1) |
| Scan.ScanMessagesNoFetch | cmd/gmail-blade/main.go:258-283 | The loop over a page fetches nothing |
| Scan.ScanPagesFetches | cmd/gmail-blade/main.go:231-284 | The Fetch events of the page loop are consecutive pages from `first` on, in order |
| Scan.ScanPagesEnds | cmd/gmail-blade/main.go:231-285 | Every page but the last was fetched after the previous one came back non-empty, and a loop that ends without error ends at a page that came back empty |
| Scan.ScanPaging | cmd/gmail-blade/main.go:214-286 | runOnce fetches the pages 1-101, 101-201 and so on, in order, each after the previous came back non-empty; returning no error, its last call fetched an empty page |
| Scan.ScanMessagesCanceled | cmd/gmail-blade/main.go:258-263 | A page ends in context.Canceled only where the context was found done |
| Scan.ScanPagesCanceled | cmd/gmail-blade/main.go:231-236 | The page loop ends in context.Canceled only where the context was found done |
| Scan.ScanCanceled | cmd/gmail-blade/main.go:214-286 | runOnce returns context.Canceled only when the context was done at the point where it returned |
| Scan.Ledger.constructor | cmd/gmail-blade/main.go:465 | The processed-UID ledger starts empty |
| Scan.Ledger.Add | cmd/gmail-blade/main.go:282 | Recording a UID adds it and nothing else |
| Scan.ScanPage | cmd/gmail-blade/main.go:258-283 | The imperative loop over a page produces the specified trace, cache, ledger and error |
| Scan.RunOnce | cmd/gmail-blade/main.go:214-286 | The imperative runOnce produces the specified trace, cache, ledger and error |
| Server.CounterSnoc | cmd/gmail-blade/main.go:471-487 | The counter after one more scan is one step of the backoff rule applied to the counter before it |
| Server.CounterIsTrailingTransient | cmd/gmail-blade/main.go:467-487 | From zero, the counter is the number of transient failures since the last success or cancellation |
| Server.TransientRun | cmd/gmail-blade/main.go:471-481 | n transient failures in a row raise the counter by n and log n records, an error every fifth count and a warning otherwise |
| Server.PermanentKeepsCounter | cmd/gmail-blade/main.go:482-484 | A failure that is neither transient nor a cancellation leaves the counter unchanged |
| Server.Wrap64 | cmd/gmail-blade/main.go:489 | The int64 product agrees with the mathematical one when in range, and is congruent to it modulo 2^64 in every case |
| Server.SleepBounds | cmd/gmail-blade/main.go:489-492 | The sleep never exceeds a minute; without overflow it is the interval times (counter + 1), capped at a minute |
| Server.SleepGrows | cmd/gmail-blade/main.go:489-492 | Without overflow, a larger counter never gives a shorter sleep |
| Server.SleepWrapsAround | cmd/gmail-blade/main.go:489 | The int64 product can wrap: the largest interval with a counter of 1 gives a negative sleep |
| Server.PauseEvents | cmd/gmail-blade/main.go:471-500 | The pause after a scan only logs and sleeps, and never for more than a minute |
| Server.ServeStep | cmd/gmail-blade/main.go:469-500 | One scan and its pause keep the server invariant |
| Server.ServeInvariant | cmd/gmail-blade/main.go:450-505 | Over any number of turns the trace and ledger only grow, the cache stays valid, no sleep exceeds a minute, and a dry run changes nothing |
| Server.CanceledScanEndsServer | cmd/gmail-blade/main.go:471-498 | When cancellation stays once signalled and the configured sleep interval is positive, a scan that returns context.Canceled ends the server in that turn |
| Server.RunServer | cmd/gmail-blade/main.go:450-505 | The imperative server loop produces the specified trace and stop decision |
| Server.ServeOnce | cmd/gmail-blade/main.go:469-500 | One imperative turn produces the specified trace, cache, ledger, counter and stop decision |
| Server.PauseAfter | cmd/gmail-blade/main.go:471-500 | The imperative pause produces the specified trace, counter and stop decision |

## Left out

- The IMAP connection, login and mailbox close, the GitHub client and its authentication, the logger, the clock, the signal handler and the context are not modelled. They are the `Oracle`, whose replies depend on the trace so far. `Finite` assumes only that a fetch that starts past the last message finds nothing, which ends the page loop.
- Debug and info log records are not in the trace. Only warnings and errors are, and structured log fields are dropped.
- Concurrency is left out: the signal goroutine is not modelled. Cancellation is the oracle's answer at the points where the code checks `ctx.Done()`: before each page, before each message, and at the sleep. `CancelStays` states that a cancelled context stays cancelled, as a Go context does; only Server.CanceledScanEndsServer assumes it.
- Compiling and running filter expressions (the `expr` library, and config parsing in `config.go`) is left out. A filter's condition is an opaque function from the environment to a result. A run-time error is a nil result, and its error log record is kept.
- Server.CanceledScanEndsServer: the model takes a done context as winning the select at the sleep (`cmd/gmail-blade/main.go:496-499`). Go guarantees that only while the timer has not fired, and with a sleep interval of zero or less both cases are ready at once and Go may pick the timer and scan again. The lemma is therefore stated only for a positive interval.
- Server.RunServer: the Go loop runs until the context is done. The model runs at most `cycles` turns and reports whether the context stopped it.
- Review.ReviewSpec: only the first page of reviews is considered, as the Go code passes no list options.
- Scan.ScanPages: the exact ledger, Scan.ScanMessagesLedger, is stated page by page. Across pages, the model proves that the ledger only grows and only with target UIDs, but does not give the union as one equation.
- Scan.ScanPages: `uint32(idx)` is taken as exact. Sequence numbers past 2^32 are not modelled.
- Server.Counter: `backoffTimes` is an unbounded natural number. Go's `int` wrap after 2^63 failures is not modelled. The int64 product for the sleep is modelled, wrap-around included.
- Uids.UidSet: the error is the trimmed offending entry. The `strconv` message wrapped around it as `invalid UID %q` is not modelled.
- Text.Quote: `%q` quoting is exact for ASCII only. Characters above U+007F are kept verbatim, while `strconv.Quote` writes a non-printable one as `\uXXXX`. This affects the texts of the label and move errors that Actions.Step builds (`cmd/gmail-blade/main.go:415-436`).
- GitHub.ParseNotification: strings are sequences of characters, so UTF-8 decoding of the body is not modelled.
- The byte-level body: the body sections are taken as already decoded strings.
- `runListMailboxes`, `main`, flag handling and the configuration file format are outside the modelled core.

## Notes on the code as written

- Keyword tests are case-sensitive and prefix-based: `delete` must be the whole action, and `label ` or `move to ` must start it. Only the two GitHub patterns are case-insensitive, and they match anywhere in the text.
- A failure that is neither transient nor a cancellation is logged but does not back off: the counter stays as it is.
- With approval disabled, a `github review` action is an unknown action. It is logged as a warning and skipped.
- A `label ` or `move to ` action without a quoted name is an error that aborts the message's remaining actions.
- A review action when nothing was prefetched is an error.
- A condition that returns the string "true" matches as much as the boolean true does.
- A failed prefetch is logged. The prefetch loop then moves on to the next prefetch.

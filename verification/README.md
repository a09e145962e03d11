# Verification of ib-gateway-mcp's shared state

A Dafny model of the parts of the MCP server for IB Gateway whose correctness depends on whole runs
rather than single calls, with proofs about every run. The source keeps this state in objects that
callbacks, tool calls and background tasks update in turn; here each such object is a class with the
same fields, every method is proved equal to a function on a plain view of them, and the theorems are
about arbitrary sequences of those functions. What the functions do is in turn stated without them: by the
events of the run, by position, and in plain numbers.

| file | models |
|---|---|
| `Registry.dfy` | the subscription registry under cooperative concurrency: one step is the code between two awaits |
| `Tokens.dfy`, `TokenTombstones.dfy`, `TokenRemovals.dfy` | the preview token store, as a refinement of an event log, and what it can still explain |
| `Windows.dfy`, `RateLimiter.dfy`, `Pacing.dfy` | sliding windows, the order rate limiter, the historical-data pacer and its result cache |
| `LogEvents.dfy`, `LogOffsets.dfy`, `LogFold.dfy`, `LogRead.dfy` | the launcher.log reader: UTC offsets, the login state machine, tail reads |
| `Accounts.dfy`, `Connection.dfy`, `Backoff.dfy` | account scope, connection state machine with the trading gate, reconnect delays |
| `News.dfy` | headline streams and their routes while request ids restart with each session |
| `Breaker.dfy` | the order circuit breaker with its state file, across restarts |
| `Policy.dfy` | per-order limits and what acceptance promises about fills |
| `Sorting.dfy`, `FaGroups.dfy` | the differences and the fingerprint of allocation groups |
| `Prune.dfy`, `Quoted.dfy` | JSON pruning and quoting for human confirmation |
| `Seqs.dfy`, `Texts.dfy`, `Wrappers.dfy` | shared helpers: sequences, stripping and words, options |

`dafny verify dfyconfig.toml` checks all of it. A lemma carries `{:induction false}` wherever Dafny would add
an induction hypothesis of its own, so that each proof is the one written.

What is outside the source's control is a parameter or a nondeterministic step: the clock (each reading
is an argument), IBKR and the socket (steps that may happen when enabled), the tokens drawn (assumed
not to repeat), the digest (assumed to tell its inputs apart), which code points are printable (a
predicate assumed only about ASCII), the orders by which values sort (any total orders), and whether a
file write succeeds. Times are integers (milliseconds for the connection, microseconds for the log) or
reals in seconds; prices and quantities are reals. The login fold groups the source's flat fields into
three records so that each part can be specified by itself; the handlers still run event by event.

Some promises do not hold as one might read them, and the model says exactly how far they do:

- The wait announced when the 600 s window is full is exact for that window and a lower bound overall;
  afterwards the burst window decides (`Pacing.AfterTheLongWaitTheBurstDecides`), and after a concrete run
  it refuses again (`Pacing.LongWaitCanFallShort`).
- Equal fingerprints do not mean that there is no change to confirm: an absent method or amount counts as
  an empty or zero one (`FaGroups.DigestEqualExactlyWhen`, `FaGroups.AbsentAndZeroShareADigest`).
- An outage reported with 1100 can end without 1101 or 1102: a farm notice ends an outage exactly when
  the latest lost code is 2110 (`Connection.FarmEndsExactlyWhen`), so 1100, 2110 and 2104 end one in every
  up session (`Connection.FarmEndsA1100OutageAfter2110`).
- A session whose API refused orders can have an open gate: exactly when every refusal came before the
  session's report (`Connection.RefusalsAreLostExactlyWhen`, `Connection.RefusalCanBeLost`).
- A headline stream left over from an earlier session takes the errors of another request with its number
  until it is reopened or closed (`News.ErrorsAreOwnExactlyWhen`, `News.NumbersAreSharedAcrossSessions`).
- A stream read within its idle time can be reaped: exactly when the read came after the sweep's scan
  (`Registry.SweptThoughUsedExactlyWhen`, `Registry.UsedStreamCanBeSwept`).
- `cancel_all` can leave streams open: it stops with an error exactly when it reaches one that is gone
  (`Registry.CancelAllRaisesExactlyWhen`), and leaves some exactly when it does so with one that is open still
  to be reached (`Registry.CancelAllLeavesExactlyWhen`, `Registry.CancelAllCanLeaveStreams`).
- A disconnect dated from a start need not follow a failed attempt: any step that marks the connection as
  down dates it (`Connection.LastDisconnectIsTheLastDrop`, `Connection.OutageWithoutAttempt`).
- The tombstones are not simply the newest `max` whose time is ahead: a burial that is forgotten later can
  have made room for one forgotten earlier (`PreviewTombstones.TombstoneExactlyWhen`,
  `PreviewRemovals.ExplainedExactlyWhen`, `PreviewTombstones.NewestRememberedCanBeGone`).

## Model

| member | source | states |
|---|---|---|
| `Registry.CapAndDedupeInEveryInterleaving` | src/ib_gateway_mcp/subscriptions.py:157-281 | in every interleaving of adds, slow adds, failed opens, removes, sweeps and resubscribe passes: entries, reserved slow opens and the fast open in flight stay within the cap, the two indexes are inverse, and no key has two openers or an opener and an entry |
| `Registry.EveryRunKeepsInv` | src/ib_gateway_mcp/subscriptions.py:113-346 | the invariants behind both families of results hold after every interleaving of steps |
| `Registry.AddReturnsTheLiveHandle` | src/ib_gateway_mcp/subscriptions.py:207-228 | what `add` hands out is a live entry for the key asked for; it is new exactly when this call ran its opener, and then it is the only entry that appeared |
| `Registry.AddOutcome` | src/ib_gateway_mcp/subscriptions.py:207-222 | in every run, holding the lock: a live entry of the key is returned and nothing changes; else a slow opener of the key is waited for; else the call is refused exactly when entries and slow openers reach the cap; else it opens the key |
| `Registry.OpenerOutcome` | src/ib_gateway_mcp/subscriptions.py:216-245 | an opener that is back has registered one new entry under its key, re-requestable if its stream is, or has failed and left no trace; its slot and the lock are free either way |
| `Registry.NoDeadlock` | src/ib_gateway_mcp/subscriptions.py:207-228 | no unfinished call is stuck: it, the opener it waits for, or the lock holder can take a step, so no wake-up is lost |
| `Registry.EveryRequestIsAnswered` | src/ib_gateway_mcp/subscriptions.py:295-346 | passes never overlap, and a request without a full pass begun after it has one in progress or a run bound to make one more |
| `Registry.QuietMeansAllAnswered` | src/ib_gateway_mcp/subscriptions.py:311-346 | once no run is active, every request so far was answered by a full pass that began after it, and that pass requested every stream live at its beginning again unless it is gone |
| `Registry.AnotherPassExactlyWhen` | src/ib_gateway_mcp/subscriptions.py:311-323 | no pass is one too many: at the end of one another begins, over the entries live then, exactly when a call came since it began |
| `Registry.EveryRunKeepsWork` | src/ib_gateway_mcp/subscriptions.py:325-346 | in every interleaving a complete pass has settled every entry live at its beginning, and a pass in progress still has the rest on its list |
| `Registry.AnsweredMeansServed` | src/ib_gateway_mcp/subscriptions.py:295-346 | an answered request has a later pass at whose end every stream live at its beginning is re-requested since, or gone |
| `Registry.PassOutcome` | src/ib_gateway_mcp/subscriptions.py:325-346 | in every run, between a pass’s beginning and its end: a stream that can be re-requested was, unless it is gone, and it is gone only by a removal, a sweep, a cancel or a failed request of its own; one that cannot was never requested and is gone at the end |
| `Registry.DisappearsExactlyWhen` | src/ib_gateway_mcp/subscriptions.py:269-361 | a step takes an entry away exactly when it removes, sweeps or cancels it, when its own re-request failed, or when a pass reaches it and it cannot be re-requested |
| `Registry.RequestsExactlyWhen` | src/ib_gateway_mcp/subscriptions.py:327-340 | a pass that reaches a live entry requests it again exactly when it has a callable for that |
| `Registry.SweptThoughUsedExactlyWhen` | src/ib_gateway_mcp/subscriptions.py:348-361 | a reap sweep removes an entry used within the idle time exactly when its last read since the scan was within that time |
| `Registry.ReadAfterTheScan` | src/ib_gateway_mcp/subscriptions.py:348-361 | from every state with two idle entries: while the sweep cancels one, reading the other does not save it |
| `Registry.UsedStreamCanBeSwept` | src/ib_gateway_mcp/subscriptions.py:348-361 | such a run from the empty registry |
| `Registry.CancelAllRaisesExactlyWhen` | src/ib_gateway_mcp/subscriptions.py:283-288 | `cancel_all` raises exactly when it reaches a handle of its snapshot that is gone by then; when it returns, all of its snapshot is gone |
| `Registry.CancelAllLeavesExactlyWhen` | src/ib_gateway_mcp/subscriptions.py:283-288 | once over, it has left a stream of its snapshot open exactly when it raised while one that it had not reached is; every handle it reached is gone for good |
| `Registry.RemovedBeforeItsTurn` | src/ib_gateway_mcp/subscriptions.py:283-288 | from every state with three entries: while `cancel_all` cancels one, removing another makes it leave the third |
| `Registry.CancelAllCanLeaveStreams` | src/ib_gateway_mcp/subscriptions.py:283-288 | such a run from the empty registry |
| `Registry.NoDuplicates` | src/ib_gateway_mcp/subscriptions.py:207-245 | two calls opening one key are one call, and an opened key has no live entry |
| `Registry.SubscriptionRegistry.Add` | src/ib_gateway_mcp/subscriptions.py:207-222 | the section of `add` under the lock, whose outcome `AddOutcome` states: return the live handle, wait for the opener, refuse, reserve, or open |
| `Registry.SubscriptionRegistry.RegisterStream` | src/ib_gateway_mcp/subscriptions.py:235-245 | registers a stream in both indexes under a number never used before |
| `Registry.SubscriptionRegistry.FastOpened` | src/ib_gateway_mcp/subscriptions.py:216-217 | the end of a fast open: registered or failed, and the lock released either way |
| `Registry.SubscriptionRegistry.SlowOpened` | src/ib_gateway_mcp/subscriptions.py:223-228 | the end of a slow open: registered or failed, and the reservation gone either way |
| `Registry.SubscriptionRegistry.ForgetEntry` | src/ib_gateway_mcp/subscriptions.py:277-281 | deletes an entry from both indexes, or changes nothing for an unknown handle |
| `Registry.SubscriptionRegistry.LatestRead` | src/ib_gateway_mcp/subscriptions.py:262-267 | a read moves only the last-read time of that entry |
| `Registry.SubscriptionRegistry.ResubscribeAll` | src/ib_gateway_mcp/subscriptions.py:311-318 | a call during a run only asks for one more pass; otherwise a run begins over a snapshot of the entries |
| `Registry.SubscriptionRegistry.VisitEntry` | src/ib_gateway_mcp/subscriptions.py:327-334 | the step that `RequestsExactlyWhen` and `DisappearsExactlyWhen` characterize: a pass skips an entry that is gone, drops one that cannot be re-requested, and re-requests the others |
| `Registry.SubscriptionRegistry.EntryReplied` | src/ib_gateway_mcp/subscriptions.py:335-343 | a failed re-request forgets the entry if it is still there |
| `Registry.SubscriptionRegistry.PassFinished` | src/ib_gateway_mcp/subscriptions.py:317-323 | a pass is followed by another exactly when one was asked for meanwhile |
| `PreviewTokens.StoreFollowsLog` | src/ib_gateway_mcp/safety/tokens.py:191-395 | the store refines the event log: its entries are exactly the previews the log leaves pending, oldest first, with the facts issued |
| `PreviewTokens.LookupSucceedsExactlyWhen` | src/ib_gateway_mcp/safety/tokens.py:234-332 | a lookup succeeds exactly when the token’s preview waits in time and unchanged, and then returns what was issued |
| `PreviewTokens.LookupRule` | src/ib_gateway_mcp/safety/tokens.py:191-332 | with a steady clock and untouched entries: success exactly when issued less than ttl ago, neither consumed nor discarded since, and not the oldest of `max` waiting ones at a later issue |
| `PreviewTokens.SingleUse` | src/ib_gateway_mcp/safety/tokens.py:248-285 | a token that was consumed or discarded never works again, whatever happens later |
| `PreviewTokens.ChangedEntryIsRefused` | src/ib_gateway_mcp/safety/tokens.py:317-332 | an entry whose kind, account, payload or expiry changed is refused by every lookup and removed |
| `PreviewTokens.CrowdedMeansOldestOfFull` | src/ib_gateway_mcp/safety/tokens.py:376-385 | an issue evicts a preview exactly when it is the oldest of exactly `max` that wait |
| `PreviewTokens.TombstonesFollowLog` | src/ib_gateway_mcp/safety/tokens.py:334-395 | every tombstone tells the truth about why its token is gone |
| `PreviewTokens.RefusalsAreTrue` | src/ib_gateway_mcp/safety/tokens.py:334-364 | a refusal as used, discarded, expired, evicted or invalidated is right about it |
| `PreviewTokens.BoundedAndDisjoint` | src/ib_gateway_mcp/safety/tokens.py:366-395 | entries and tombstones hold at most `max` each, without repeats, and share no token |
| `PreviewTokens.PendingAtMostMax` | src/ib_gateway_mcp/safety/tokens.py:376-385 | the log never leaves more than `max` previews pending |
| `PreviewTokens.PendingClosedForm` | src/ib_gateway_mcp/safety/tokens.py:191-395 | with a steady clock, an in-time preview is pending exactly while no later event took it |
| `PreviewTokens.PreviewStore.BuryToken` | src/ib_gateway_mcp/safety/tokens.py:387-395 | remembers why a token is gone and keeps the newest `max` tombstones |
| `PreviewTokens.PreviewStore.PurgeExpired` | src/ib_gateway_mcp/safety/tokens.py:366-374 | buries exactly the expired entries and forgets the tombstones whose time is over |
| `PreviewTokens.PreviewStore.EvictOldest` | src/ib_gateway_mcp/safety/tokens.py:376-385 | buries the oldest entries until one more fits |
| `PreviewTokens.PreviewStore.IssueToken` | src/ib_gateway_mcp/safety/tokens.py:191-232 | stores a preview after purging and making room, or changes nothing when the input is refused |
| `PreviewTokens.PreviewStore.Verified` | src/ib_gateway_mcp/safety/tokens.py:317-332 | returns the entry if its digest still fits, else removes and buries it |
| `PreviewTokens.PreviewStore.PeekRecord` | src/ib_gateway_mcp/safety/tokens.py:234-246 | a lookup that leaves the entry |
| `PreviewTokens.PreviewStore.ConsumeRecord` | src/ib_gateway_mcp/safety/tokens.py:248-266 | a lookup that removes the entry and buries it as used |
| `PreviewTokens.PreviewStore.DiscardRecord` | src/ib_gateway_mcp/safety/tokens.py:268-285 | a lookup that removes the entry and buries it with the cleaned note |
| `PreviewTokens.KeptNotesAreTidy` | src/ib_gateway_mcp/safety/tokens.py:283-284 | a note is kept exactly when it has a word: all its words with single blanks between when that is at most 200 characters, else the first 200 of them |
| `Texts.CollapsingKeepsWords` | src/ib_gateway_mcp/safety/tokens.py:283 | collapsing white space keeps every word in its order and leaves only single blanks between them |
| `PreviewTombstones.TombstoneExactlyWhen` | src/ib_gateway_mcp/safety/tokens.py:366-395 | a removal can be explained exactly while its burial stands: its time to be forgotten was ahead at every clock reading since, and never were `max` later burials remembered with it |
| `PreviewTombstones.UnknownExactlyWhen` | src/ib_gateway_mcp/safety/tokens.py:334-341 | a lookup calls a token unknown exactly when no preview of it waits in time and no burial of it stands |
| `PreviewRemovals.ExplainedExactlyWhen` | src/ib_gateway_mcp/safety/tokens.py:366-395 | by the log alone: a removal can be explained exactly when its time to be forgotten was ahead at every later clock reading and at no moment since had `max` later removals not been forgotten |
| `PreviewRemovals.MarksAreTheRemovals` | src/ib_gateway_mcp/safety/tokens.py:191-395 | the sequence this is read off holds exactly the removals and clock readings of the log, by event, then overdue previews before the clock and the others after it, then by age |
| `PreviewRemovals.BurialsMirrorTheLog` | src/ib_gateway_mcp/safety/tokens.py:366-395 | the store buries those removals one for one, in that order, with those times |
| `PreviewTombstones.EveryRemovalIsBuried` | src/ib_gateway_mcp/safety/tokens.py:248-395 | of the pending previews an event buries exactly those it removes |
| `PreviewTombstones.BurialsHappenOnce` | src/ib_gateway_mcp/safety/tokens.py:191-395 | no token is buried twice, and a buried one is never held again |
| `PreviewTombstones.BurialsPlay` | src/ib_gateway_mcp/safety/tokens.py:366-395 | the tombstones are what the burials and forgettings of the log leave, in their order |
| `PreviewTombstones.PositionsStand` | src/ib_gateway_mcp/safety/tokens.py:387-395 | keeping the newest `max` at every burial keeps exactly the burials that stand |
| `PreviewTombstones.NewestRememberedCanBeGone` | src/ib_gateway_mcp/safety/tokens.py:387-395 | a run after which a token’s burial is not forgotten and is among the newest `max` that are not, yet its tombstone is gone |
| `RateLimiting.EveryWindowHoldsAtMostLimit` | src/ib_gateway_mcp/safety/ratelimit.py:122-178 | over every run, each half-open window of the whole history since the last reset holds at most `limit` stamps |
| `RateLimiting.FitsExactlyWhen` | src/ib_gateway_mcp/safety/ratelimit.py:122-155 | a check passes exactly when the count fits beside the stamps younger than the window |
| `RateLimiting.WaitIsExact` | src/ib_gateway_mcp/safety/ratelimit.py:122-155 | the index used for the wait is in range, and with nothing acquired the check fails at every time before the announced wait and passes at it |
| `RateLimiting.RetryAfterAgreesWithCheck` | src/ib_gateway_mcp/safety/ratelimit.py:112-120 | the advertised wait is that of a check for one, and zero exactly when one fits |
| `RateLimiting.RunKeepsInv` | src/ib_gateway_mcp/safety/ratelimit.py:122-178 | after every run the queue is exactly what the history leaves young, and it is spaced |
| `RateLimiting.HistoryExactly` | src/ib_gateway_mcp/safety/ratelimit.py:122-178 | what is remembered: an acquire that fits adds its count of stamps at its second clock reading, a reset forgets all, and nothing else adds or forgets any |
| `RateLimiting.RateLimiter.DropExpired` | src/ib_gateway_mcp/safety/ratelimit.py:175-178 | pops exactly the stamps that left the window |
| `RateLimiting.RateLimiter.CheckCount` | src/ib_gateway_mcp/safety/ratelimit.py:122-155 | the verdict on a count, with the wait; only expired stamps are dropped |
| `RateLimiting.RateLimiter.AcquireCount` | src/ib_gateway_mcp/safety/ratelimit.py:157-169 | a passed check adds the stamps at the second clock reading; a failed one records nothing |
| `RateLimiting.RateLimiter.Remaining` | src/ib_gateway_mcp/safety/ratelimit.py:104-110 | the free slots, or none without a limit |
| `RateLimiting.RateLimiter.TimeToRetry` | src/ib_gateway_mcp/safety/ratelimit.py:112-120 | the wait for one slot |
| `Windows.SpacedBoundsEveryWindow` | src/ib_gateway_mcp/safety/ratelimit.py:122-178 | stamps of which any k + 1 in a row span the window put at most k in any half-open window |
| `Windows.ExpireIsRecent` | src/ib_gateway_mcp/safety/ratelimit.py:175-178 | popping from the left leaves exactly the young stamps of a sorted queue |
| `Windows.AddingKeepsSpacing` | src/ib_gateway_mcp/safety/ratelimit.py:157-169 | adding stamps that fit beside the young ones keeps the spacing of the whole history |
| `Pacing.EveryWindowIsPaced` | src/ib_gateway_mcp/services/_pacing.py:94-128 | over every run, each 600 s window holds total weight at most 60 and each 2 s window at most 5 per key |
| `Pacing.EveryWindowOfCallsIsPaced` | src/ib_gateway_mcp/services/_pacing.py:94-153 | of the admitted calls, in every 600 s twice the BID_ASK ones and the others are at most 60; in every 2 s those for the same contract, exchange, kind and data type are at most 5, or 2 for BID_ASK |
| `Pacing.CallAdmittedExactlyWhen` | src/ib_gateway_mcp/services/_pacing.py:94-153 | a call is admitted exactly when its weight, 2 for BID_ASK and else 1, fits beside the last 600 s of everything admitted and the last 2 s of its own key |
| `Pacing.QueuesMirrorTheHistory` | src/ib_gateway_mcp/services/_pacing.py:94-128 | the global queue is the last 600 s of the history, and the burst queues are exactly its last 2 s split by key |
| `Pacing.AskSeesTheHistory` | src/ib_gateway_mcp/services/_pacing.py:94-128 | a request is admitted exactly when it fits both windows of the whole history; a refusal records nothing |
| `Pacing.BurstWaitIsExact` | src/ib_gateway_mcp/services/_pacing.py:119-125 | a burst refusal’s wait is the first admissible time |
| `Pacing.LongWaitIsExactForItsWindow` | src/ib_gateway_mcp/services/_pacing.py:110-118 | a long-window refusal’s wait is exact for that window and a lower bound overall |
| `Pacing.AfterTheLongWaitTheBurstDecides` | src/ib_gateway_mcp/services/_pacing.py:110-125 | at the end of a long wait the request passes exactly when its burst window has room |
| `Pacing.LongWaitCanFallShort` | src/ib_gateway_mcp/services/_pacing.py:110-125 | a run with a steady clock after which a request is told to wait half a second for the long window and, that half second later, is refused by the burst window |
| `Pacing.IdenticalRequestsAreAnswered` | src/ib_gateway_mcp/services/_pacing.py:184-204 | a cached result is returned exactly while its latest put is less than 15 s ago |
| `Pacing.HistoricalPacer.AdmitWeight` | src/ib_gateway_mcp/services/_pacing.py:94-128 | sweeps both kinds of queue, then admits or refuses with the wait |
| `Pacing.HistoricalPacer.SweepBursts` | src/ib_gateway_mcp/services/_pacing.py:103-108 | every burst queue keeps its young stamps and empty ones are dropped |
| `Pacing.HistoricalPacer.AdmitRequest` | src/ib_gateway_mcp/services/_pacing.py:142-153 | the decision on one call, with the weight that `CallAdmittedExactlyWhen` states |
| `Pacing.HistoricalPacer.AdmitBars` | src/ib_gateway_mcp/services/_pacing.py:155-169 | bars longer than 30 seconds are not paced |
| `Pacing.RecentResults.Purge` | src/ib_gateway_mcp/services/_pacing.py:200-204 | drops exactly the results past their time to live |
| `Pacing.RecentResults.GetResult` | src/ib_gateway_mcp/services/_pacing.py:191-194 | the young result of a key, if any |
| `Pacing.RecentResults.PutResult` | src/ib_gateway_mcp/services/_pacing.py:196-198 | stores a result at a clock reading after the purge |
| `LogOffsets.ResolveOffsets` | src/ib_gateway_mcp/_gateway_log.py:358-390 | the linear two-pass resolution gives every event the offset of the documented rule |
| `LogOffsets.FillSegment` | src/ib_gateway_mcp/_gateway_log.py:393-410 | one pass fills a segment: the latest anchor so far, and before the first anchor that one |
| `LogOffsets.Following` | src/ib_gateway_mcp/_gateway_log.py:377-382 | one pass back finds, for each segment, the first anchor after it |
| `LogOffsets.Borrow` | src/ib_gateway_mcp/_gateway_log.py:383-390 | segments without anchors take the previous offset, else the following one, else the fallback |
| `LogOffsets.LatestOwnAnchorDecides` | src/ib_gateway_mcp/_gateway_log.py:361-363 | the rule: the latest anchor at or before an event in its segment decides |
| `LogOffsets.FirstOwnAnchorDecides` | src/ib_gateway_mcp/_gateway_log.py:361-363 | the rule: before a segment’s first anchor, that one decides |
| `LogOffsets.NearestEarlierDecides` | src/ib_gateway_mcp/_gateway_log.py:361-363 | the rule: without an anchor in the segment, the nearest earlier anchor decides |
| `LogOffsets.LaterAnchorDecides` | src/ib_gateway_mcp/_gateway_log.py:361-363 | the rule: with none earlier either, the first later anchor decides, and without any the fallback |
| `LogFold.CountersCountFromTheNewLogin` | src/ib_gateway_mcp/_gateway_log.py:446-578 | attempts and challenges are those from the first trigger after the last success that a trigger follows; they are complete and dated by that success |
| `LogFold.CountersCountEverythingOtherwise` | src/ib_gateway_mcp/_gateway_log.py:446-578 | the counts are complete exactly when such a success exists; otherwise they count the whole list |
| `LogFold.PhaseExactlyWhen` | src/ib_gateway_mcp/_gateway_log.py:453-559 | each phase but logging_in holds exactly when one of its own events is followed only by events that keep it |
| `LogFold.NoPhaseExactlyWhen` | src/ib_gateway_mcp/_gateway_log.py:446-559 | there is no phase exactly while only marks, noise and successful authentications came |
| `LogFold.SinceIsTheLastEntry` | src/ib_gateway_mcp/_gateway_log.py:453-559 | in awaiting_2fa, restarting and logged_in, `since` is the time of the latest entering event |
| `LogFold.SinceIsTheStretchStart` | src/ib_gateway_mcp/_gateway_log.py:453-460 | in logging_in, login_rejected, throttled and twofa_ended, `since` is the time of the first event of the current stretch of that phase |
| `LogFold.PhasesHaveStretches` | src/ib_gateway_mcp/_gateway_log.py:453-460 | every phase entered has such a stretch |
| `LogFold.EveryFoldIsBacked` | src/ib_gateway_mcp/_gateway_log.py:446-578 | after every event list: awaiting_2fa has a pending challenge, throttled a retry time, login_rejected a reason, logged_in the last success as its start |
| `LogFold.PendingFollows` | src/ib_gateway_mcp/_gateway_log.py:472-559 | a challenge is pending exactly from the latest challenge until a restart, a new round, its end or a success; a retry time is the latest pause’s until a restart or success |
| `LogFold.RoundFollows` | src/ib_gateway_mcp/_gateway_log.py:472-502 | what was asked for is that of the latest authentication round since the last restart, and warm says whether that restart reused the session |
| `LogFold.SuccessOfRoundFollows` | src/ib_gateway_mcp/_gateway_log.py:493-526 | the protocol is that of the round’s latest successful authentication |
| `LogFold.FirstRejectionDecides` | src/ib_gateway_mcp/_gateway_log.py:529-538 | the reason of a rejected login is that of the first rejection of the phase: unrecognized, the saved session if the round brought one and was asked for the password, else the credentials |
| `LogFold.EndedWithChallenge` | src/ib_gateway_mcp/_gateway_log.py:541-544 | whether a login ended with a challenge is whether one was pending when it last ended |
| `LogFold.RetryReasonFollows` | src/ib_gateway_mcp/_gateway_log.py:453-526 | the reason a login under way is retried is the latest one told in its stretch: no answer, or not completed |
| `LogFold.LastEventsFollow` | src/ib_gateway_mcp/_gateway_log.py:446-451 | the last event of the login is the latest that is not idle noise, and the other way round |
| `LogFold.LoggingInExactlyWhen` | src/ib_gateway_mcp/_gateway_log.py:453-559 | the phase is logging_in exactly when some event entered a phase and no other phase was entered last |
| `LogFold.LatestIsDeclared` | src/ib_gateway_mcp/_gateway_log.py:472-559 | “the latest event unless cleared since” is the position that sets with nothing setting or clearing after it |
| `LogFold.StatesAgeOneWay` | src/ib_gateway_mcp/_gateway_log.py:585-705 | with no new events a login state stays exactly as it is or ages: under way, then idle, then unknown |
| `LogFold.ShownStatesAreTrue` | src/ib_gateway_mcp/_gateway_log.py:585-705 | no shown time is ahead; a pause is shown only with its retry time and until 90 s after it, a start for 90 s, a login under way for 90 s or while its last event is at most ten minutes old, idle only after 90 s, and none of them of a log gone silent; challenges and logins are shown only after their events |
| `LogFold.WaitsAreShownExactlyWhen` | src/ib_gateway_mcp/_gateway_log.py:595-705 | logged_in is shown exactly while nothing else was entered since; a waiting challenge while the log was written to in the last 90 s; a rejection, a pause until 90 s after its end and a start for 90 s while it was in the last seven minutes |
| `LogFold.LoginsAreShownExactlyWhen` | src/ib_gateway_mcp/_gateway_log.py:585-705 | logging_in is shown for 90 s after a login that ended and else until ten minutes pass without an event; idle exactly past those times, or for seven minutes after idle noise before any start |
| `LogFold.ShownSince` | src/ib_gateway_mcp/_gateway_log.py:585-705 | since when: the phase, the end of the pause, the last event, the log’s first line or its last write; a retry time exactly with a pause |
| `LogFold.LoginWordsExactlyWhen` | src/ib_gateway_mcp/_gateway_log.py:585-616 | the wording of a login under way, ended or idle, exactly when: with or without a challenge, why it is retried, stalled, never attempted, warm |
| `LogFold.OtherWordsExactlyWhen` | src/ib_gateway_mcp/_gateway_log.py:595-705 | the wording of a challenge, a rejection, a pause and a silent or empty log, exactly when |
| `LogFold.SuccessWordsExactlyWhen` | src/ib_gateway_mcp/_gateway_log.py:623-633 | a login by a second factor, by the saved session of a warm start, or by a password, exactly when |
| `LogFold.Fold.FeedEvent` | src/ib_gateway_mcp/_gateway_log.py:446-451 | an event changes counters, phase and facts as specified part by part |
| `LogFold.Fold.Go` | src/ib_gateway_mcp/_gateway_log.py:453-460 | `since` moves only when the phase changes; a reason is kept unless a new one is given |
| `LogFold.Fold.NewSequence` | src/ib_gateway_mcp/_gateway_log.py:462-469 | counting restarts at zero at the first sign of a login after a success |
| `LogFold.Fold.OnRestart` | src/ib_gateway_mcp/_gateway_log.py:472-480 | a restart clears what was known of the login |
| `LogFold.Fold.OnLoginStart` | src/ib_gateway_mcp/_gateway_log.py:487-490 | a login start leaves a pending challenge alone |
| `LogFold.Fold.OnAuthStart` | src/ib_gateway_mcp/_gateway_log.py:493-502 | an authentication round counts as an attempt |
| `LogFold.Fold.OnChallenge` | src/ib_gateway_mcp/_gateway_log.py:505-509 | a challenge counts, is pending and renews the phase |
| `LogFold.Fold.OnCompleted` | src/ib_gateway_mcp/_gateway_log.py:521-526 | a failed completion keeps a rejection and an ended challenge |
| `LogFold.Fold.OnRejectedCredentials` | src/ib_gateway_mcp/_gateway_log.py:529-532 | the first rejection of a run sets the reason: the saved session or the password |
| `LogFold.Fold.OnRejectedOther` | src/ib_gateway_mcp/_gateway_log.py:535-538 | the first rejection of a run sets the reason |
| `LogFold.Fold.OnTwofaEnded` | src/ib_gateway_mcp/_gateway_log.py:541-544 | an ended challenge is no longer pending |
| `LogFold.Fold.OnThrottle` | src/ib_gateway_mcp/_gateway_log.py:547-550 | a pause sets the retry time |
| `LogFold.Fold.OnLoggedIn` | src/ib_gateway_mcp/_gateway_log.py:553-559 | a success renews the phase and ends the pending challenge and the pause |
| `LogFold.FoldFiles` | src/ib_gateway_mcp/_gateway_log.py:649-668 | the loops over files and events compute the state that `FilesAreFoldedInOrder` characterizes |
| `LogFold.FilesAreFoldedInOrder` | src/ib_gateway_mcp/_gateway_log.py:649-668 | the state is that of the files’ events in the order of the files, each but the anchors at its local time less the offset of the rule, counted from the first line of all |
| `LogFold.FilesAreFoldedOneWay` | src/ib_gateway_mcp/_gateway_log.py:649-668 | and of no other list: what those words describe determines the state |
| `LogFold.EventsStandInFileOrder` | src/ib_gateway_mcp/_gateway_log.py:651 | event n of file i stands after exactly the events of the files before it and its n predecessors, and there are no others |
| `LogFold.EarlierFilesComeFirst` | src/ib_gateway_mcp/_gateway_log.py:651 | every event of a file comes before every event of a later file |
| `LogFold.FirstLineExactlyWhen` | src/ib_gateway_mcp/_gateway_log.py:660 | the first line of all is that of the first file that has one |
| `LogFold.FallbackExactlyWhen` | src/ib_gateway_mcp/_gateway_log.py:652-658 | the fallback is what the newest file with a line says, the nearest quarter hour of its last line less its mtime, or zero without a line, without an mtime or too far off |
| `LogFold.EstimateFindsTheZone` | src/ib_gateway_mcp/_gateway_log.py:652-658 | a clock a whole number of quarter hours off UTC is found when the last line was written within seven and a half minutes of the mtime |
| `LogFold.InUtcIsInUtc` | src/ib_gateway_mcp/_gateway_log.py:664-668 | every event but the anchors is folded in its turn, at its local time less its offset, and nothing else |
| `LogFold.FoldEvents` | src/ib_gateway_mcp/_gateway_log.py:659-668 | the loop feeds every event but the anchors at its resolved time |
| `LogFold.FindFallback` | src/ib_gateway_mcp/_gateway_log.py:652-658 | the loop finds the estimate of the newest file with a line |
| `LogFold.FallbackIsTheNewestLine` | src/ib_gateway_mcp/_gateway_log.py:652-658 | the fallback is the estimate of the newest file that has a line, or zero |
| `LogFold.RoundedIsNearest` | src/ib_gateway_mcp/_gateway_log.py:312-317 | an offset is the nearest multiple of 15 minutes, halves to even; there is none exactly when the nearest is beyond 14 hours |
| `LogRead.KeptLinesStartAtTheCut` | src/ib_gateway_mcp/_gateway_log.py:1138-1150 | for any bytes and any cut, the lines kept are exactly the newline-terminated lines of the whole file that start at or after the cut |
| `LogRead.LinesJoin` | src/ib_gateway_mcp/_gateway_log.py:1138-1150 | the lines kept, joined again with their newlines, are the file from the first line start at or after the cut up to its last newline |
| `LogRead.TailIsSuffix` | src/ib_gateway_mcp/_gateway_log.py:1138-1150 | a tail read is a suffix of the full read, and a shorter one of a longer one |
| `LogRead.FoldedLinesAreContiguous` | src/ib_gateway_mcp/_gateway_log.py:1081-1110 | over several files, the lines folded are one contiguous stretch up to the newest, with only the oldest file cut |
| `LogRead.Read` | src/ib_gateway_mcp/_gateway_log.py:1081-1110 | what is read is the newest regular files without a gap, within the byte budget, cut no more than the limits ask for and stopped only for a reason; or nothing, for the reason told |
| `LogRead.ReadNewest` | src/ib_gateway_mcp/_gateway_log.py:1085-1110 | the same for the entries considered |
| `LogRead.ReadNext` | src/ib_gateway_mcp/_gateway_log.py:1089-1105 | one more file is added within the budget left |
| `LogRead.ReadFile` | src/ib_gateway_mcp/_gateway_log.py:1129-1150 | the bytes taken of a file, whether its head was cut, and its whole lines from there |
| `LogRead.ReadRange` | src/ib_gateway_mcp/_gateway_log.py:1153-1163 | chunks of any size the system returns join up to the range asked for |
| `Accounts.RefreshIsSound` | src/ib_gateway_mcp/accounts.py:118-158 | after every refresh the default is allowed, allowed accounts are managed, and the allowlist counts exactly where managed |
| `Accounts.ManagedAreReported` | src/ib_gateway_mcp/accounts.py:120 | the managed accounts are the reported ones, stripped, non-empty, each once |
| `Accounts.ManagedInOrder` | src/ib_gateway_mcp/accounts.py:120 | they stand in the order in which they were first reported |
| `Accounts.DefaultExactlyWhen` | src/ib_gateway_mcp/accounts.py:131-144 | the default is the configured account if managed, else the only managed one |
| `Accounts.ResolvedIsAllowed` | src/ib_gateway_mcp/accounts.py:162-185 | whatever resolves is allowed and managed; without a name it is the default; nothing resolves exactly before the accounts are known |
| `Accounts.AllowedResolves` | src/ib_gateway_mcp/accounts.py:162-185 | every allowed account is what its own name resolves to |
| `Accounts.NothingLiveExactlyWhen` | src/ib_gateway_mcp/accounts.py:108-116 | no live account is in scope exactly when all allowed ones are paper, or all managed ones when none is allowed |
| `Accounts.FirstLetterDecides` | src/ib_gateway_mcp/accounts.py:29-34 | an account is paper exactly when its first character that is not blank is D or d |
| `Texts.StripExactly` | src/ib_gateway_mcp/accounts.py:29-34 | stripping takes away the blanks around a text and nothing else |
| `Accounts.ResolvesExactlyWhen` | src/ib_gateway_mcp/accounts.py:162-185 | without a name the default or its absence, with one the stripped name if allowed, before any accounts neither: each answer and each refusal exactly when |
| `Accounts.AttributionOrder` | src/ib_gateway_mcp/accounts.py:44-60 | a record belongs to the account it names itself, else its execution does, else its order does, else to none |
| `Accounts.FilterLeaksNothing` | src/ib_gateway_mcp/accounts.py:204-211 | a filter keeps exactly the records that name the resolved, allowed account |
| `Accounts.AccountScope.Refresh` | src/ib_gateway_mcp/accounts.py:118-123 | recomputes managed accounts, default and allowlist |
| `Connection.OnlyPaperWithoutLive` | src/ib_gateway_mcp/connection.py:460-485 | in every reachable state: if the gate lets a write through and live trading is not allowed, the name of every account that resolves begins with D or d, and the latest session’s own report manages it |
| `Connection.GateExactlyWhen` | src/ib_gateway_mcp/connection.py:460-485 | over every run: the gate is open exactly when the session is up, its own report’s accounts give an order toolset an allowed account and no live one unless allowed, and the API has not refused orders since that report |
| `Connection.RefusalsExactlyWhen` | src/ib_gateway_mcp/connection.py:460-485 | over every run, which refusal a write gets: session down, order tools off, a live account or none reported, none allowed, API read-only, each exactly when it is the first that applies |
| `Connection.SetUpFollowsItsReport` | src/ib_gateway_mcp/connection.py:698-764 | from setup on, scope and verdict are those computed from this session’s own report, and the read-only flag says whether a refusal came after it |
| `Connection.RefusalsAreLostExactlyWhen` | src/ib_gateway_mcp/connection.py:704-715 | an up session whose accounts allow orders has an open gate exactly when every refusal since its attempt began precedes its report |
| `Connection.RefusalIsLost` | src/ib_gateway_mcp/connection.py:704-715 | for every login whose accounts and settings allow orders in a session that loads none: a refusal before its report leaves the gate open |
| `Connection.RefusalCanBeLost` | src/ib_gateway_mcp/connection.py:704-715 | a run whose session’s only refusal comes before its report, and whose gate is open |
| `Connection.EveryRunKeepsInv` | src/ib_gateway_mcp/connection.py:508-943 | the socket, the state, the drop flag and the supervisor agree in every reachable state |
| `Connection.StateFollows` | src/ib_gateway_mcp/connection.py:524-943 | over every run, the state is what the last step that decides it brought about: connecting by a start or an attempt, up by the end of a setup without a drop, not accepting by a refused attempt, down by any other failure, drop, stop or error |
| `Connection.DroppedExactlyWhen` | src/ib_gateway_mcp/connection.py:607-813 | the supervisor is told of a drop exactly when the socket closed since its attempt began |
| `Connection.ReadOnlyExactlyWhen` | src/ib_gateway_mcp/connection.py:704-706 | the API counts as read-only exactly when it said so and no setup that got to clear it came since |
| `Connection.SetupLoads` | src/ib_gateway_mcp/connection.py:698-728 | a reported session loads orders exactly if it is read-only and orders are allowed, then its executions |
| `Connection.DegradedExactlyWhileLinkDown` | src/ib_gateway_mcp/connection.py:838-852 | an up session is degraded exactly when some lost code is followed by no new attempt, no lost or restored code and, if it was 2110, no farm that is back |
| `Connection.FarmEndsExactlyWhen` | src/ib_gateway_mcp/connection.py:838-852 | a farm notice ends an outage exactly when the latest lost code is 2110 |
| `Connection.FarmEndsA1100OutageAfter2110` | src/ib_gateway_mcp/connection.py:838-852 | from every up session: 1100, 2110 and a farm that is back end the outage, with neither 1101 nor 1102 |
| `Connection.SessionsComeUp` | src/ib_gateway_mcp/connection.py:636-728 | up sessions are reachable |
| `Connection.DroppedSessionsStayDown` | src/ib_gateway_mcp/connection.py:636-728 | over every run: once a session dropped, even in the middle of its setup, it is not up at any state until the next attempt begins |
| `Connection.LastDisconnectIsTheLastDrop` | src/ib_gateway_mcp/connection.py:931-943 | the recorded disconnect is the last time an up session went down; before any did, it is the time of the latest start before the first step that, outside a stop and after some start, marked the connection as down, and there is none while no step has |
| `Connection.MarksExactlyWhen` | src/ib_gateway_mcp/connection.py:931-943 | the steps that can record a disconnect are exactly those that take the connection down, at their time |
| `Connection.OutageWithoutAttempt` | src/ib_gateway_mcp/connection.py:825-833 | a run in which an error before the first attempt dates the disconnect |
| `Connection.SameSessionExactlyWhen` | src/ib_gateway_mcp/connection.py:603-608 | the session number is the same at two moments exactly when no attempt began between them |
| `Connection.SessionsAreCounted` | src/ib_gateway_mcp/connection.py:603-608 | sessions are numbered by their attempts |
| `Connection.ConnectionManager.CheckTrading` | src/ib_gateway_mcp/connection.py:460-485 | the verdict of the gate that `GateExactlyWhen` characterizes, or the first condition that is missing: session, order toolset, allowed account, no live one, API |
| `Connection.ConnectionManager.MarkDown` | src/ib_gateway_mcp/connection.py:931-943 | the disconnect time moves when an up session goes down, or first from the start time |
| `Connection.ConnectionManager.OnDisconnected` | src/ib_gateway_mcp/connection.py:804-813 | a drop during a stop or an attempt does not mark the connection down |
| `Connection.ConnectionManager.Close` | src/ib_gateway_mcp/connection.py:640-644 | closing an open socket is a drop |
| `Connection.ConnectionManager.Start` | src/ib_gateway_mcp/connection.py:525-534 | a start dates an outage it begins in |
| `Connection.ConnectionManager.BeginAttempt` | src/ib_gateway_mcp/connection.py:607-611 | an attempt begins a new session and forgets what the last one reported |
| `Connection.ConnectionManager.AttemptFailed` | src/ib_gateway_mcp/connection.py:615-634 | a failed attempt marks the connection down |
| `Connection.ConnectionManager.ConnectReturned` | src/ib_gateway_mcp/connection.py:635-720 | a dropped session is not set up; any other is, up to its first await |
| `Connection.ConnectionManager.FinishSetup` | src/ib_gateway_mcp/connection.py:721-728 | the session comes up, degraded if the link was reported down |
| `Connection.ConnectionManager.SetupFailed` | src/ib_gateway_mcp/connection.py:639-645 | an error in the setup closes the session |
| `Connection.ConnectionManager.OrdersLoaded` | src/ib_gateway_mcp/connection.py:710-715 | after the order sync the setup goes on unless the session dropped |
| `Connection.ConnectionManager.ExecutionsLoaded` | src/ib_gateway_mcp/connection.py:716-728 | after the executions the session comes up unless it dropped |
| `Connection.ConnectionManager.OnConnectivity` | src/ib_gateway_mcp/connection.py:838-852 | lost and restored codes, and which of them a farm ends |
| `Connection.ConnectionManager.OnReadOnlyApi` | src/ib_gateway_mcp/connection.py:818-821 | a read-only refusal is remembered for the session |
| `Connection.ConnectionManager.OnUnusable` | src/ib_gateway_mcp/connection.py:825-833 | a not-connected code marks a closed socket down |
| `Connection.ConnectionManager.Reconnect` | src/ib_gateway_mcp/connection.py:912-921 | a forced reconnect closes an open socket and marks the connection down |
| `Connection.ConnectionManager.AskStop` | src/ib_gateway_mcp/connection.py:550-553 | a stop stops the supervisor first |
| `Connection.ConnectionManager.FinishStop` | src/ib_gateway_mcp/connection.py:557-561 | a stop ends with the connection down |
| `Backoff.ReconnectsAreRateBounded` | src/ib_gateway_mcp/connection.py:588-601 | any N waits in a row, with the attempts before them, take at least 10 N - 25 seconds, whatever mix of failures, short and stable sessions |
| `Backoff.BoundIsTight` | src/ib_gateway_mcp/connection.py:588-601 | four refusals at once meet the bound |
| `Backoff.WaitsDouble` | src/ib_gateway_mcp/connection.py:588-601 | each wait is a second doubled once per round since the last stable session, at most a minute |
| `Backoff.Supervise` | src/ib_gateway_mcp/connection.py:588-601 | the loop waits as specified and its clock is the sum |
| `News.CancelsOnlyOwnRequests` | src/ib_gateway_mcp/services/news.py:237-287 | across any reconnects, opens, closes and reopens, a cancel follows a request that the same stream sent in the same session, and no other request of that session has its number |
| `News.HeadlinesReachTheirStream` | src/ib_gateway_mcp/services/_hooks.py:97-127 | a headline of a live request reaches the stream that sent it, even while stale streams hold the same number |
| `News.NumbersAreSharedAcrossSessions` | src/ib_gateway_mcp/services/news.py:275-298 | a run in which an error for a live request’s number is recorded by a stream left from an earlier session |
| `News.ErrorsAreOwnExactlyWhen` | src/ib_gateway_mcp/services/news.py:293-298 | a fatal error is taken by exactly the streams that hold its number, whichever session they sent it in, and any other error by none |
| `News.ListensExactlyWhile` | src/ib_gateway_mcp/services/news.py:236-282 | a stream listens for errors exactly while it holds a number |
| `News.NumbersAreConsecutive` | src/ib_gateway_mcp/services/news.py:236-249 | while a socket is up, request ids go on one by one from the first, whatever is opened, closed or sent besides |
| `News.EveryRunKeepsInv` | src/ib_gateway_mcp/services/news.py:208-287 | what streams remember, what was sent and what is routed agree after every run |
| `News.TickNewsRouter.Remove` | src/ib_gateway_mcp/services/_hooks.py:120-127 | removes a route only if it still goes to the stream given |
| `News.HeadlineStream.OpenStream` | src/ib_gateway_mcp/services/news.py:237-248 | while connected, sends a request under a fresh id and remembers the session; otherwise it fails and changes nothing |
| `News.HeadlineStream.TakeError` | src/ib_gateway_mcp/services/news.py:293-298 | records a fatal error for the number it holds and ignores any other |
| `News.HeadlineStream.CloseStream` | src/ib_gateway_mcp/services/news.py:266-282 | cancels only in the session of the request |
| `News.HeadlineStream.ReopenStream` | src/ib_gateway_mcp/services/news.py:284-287 | closes, then opens again if connected |
| `Breaker.OpenExactlyWhen` | src/ib_gateway_mcp/safety/ratelimit.py:204-337 | with a working state file (or none), the breaker is open exactly when since the last reset some process saw `threshold` rejections in a row, or the file was there from the start |
| `Breaker.StreakIsTheLastRun` | src/ib_gateway_mcp/safety/ratelimit.py:276-290 | the count is the length of the run of rejections since the last success, reset or restart |
| `Breaker.EveryRunKeepsInv` | src/ib_gateway_mcp/safety/ratelimit.py:276-345 | while closed the count stays below the threshold, and the file is there exactly while the breaker is open |
| `Breaker.OnlyResetCloses` | src/ib_gateway_mcp/safety/ratelimit.py:276-345 | whatever the file does, only a reset closes an open breaker, or a restart that finds no file |
| `Breaker.UnreadableComesBackOpen` | src/ib_gateway_mcp/safety/ratelimit.py:335-340 | a file that cannot be read comes back open at that time, with no count and with that as its reason |
| `Breaker.BrokenWriteStaysOpen` | src/ib_gateway_mcp/safety/ratelimit.py:305-318 | a write broken off while tripping survives a restart as open |
| `Breaker.RestartRestoresTheTrip` | src/ib_gateway_mcp/safety/ratelimit.py:305-340 | a written trip is read back as it was, time, count and reason, whatever came since but a reset |
| `Breaker.WrittenTripLasts` | src/ib_gateway_mcp/safety/ratelimit.py:276-337 | a written trip keeps the breaker open and the file as it is through successes, rejections and restarts, until a reset |
| `Breaker.FileChangesExactlyWhen` | src/ib_gateway_mcp/safety/ratelimit.py:292-324 | what the file holds after any event: it changes only when a trip is written, well or not, or a reset removes it |
| `Breaker.LatestReasonIsKept` | src/ib_gateway_mcp/safety/ratelimit.py:284-285 | the reason kept is the latest non-empty one since the last reset or restart, its first 300 characters |
| `Breaker.ResetForgetsReasons` | src/ib_gateway_mcp/safety/ratelimit.py:294-296 | a reset forgets it |
| `Breaker.CountOfATrip` | src/ib_gateway_mcp/safety/ratelimit.py:276-290 | while a trip stands, successes do not count and every rejection does |
| `Breaker.ReasonsAreShort` | src/ib_gateway_mcp/safety/ratelimit.py:284-285 | reasons are kept non-empty and at most 300 characters long |
| `Breaker.CircuitBreaker.constructor` | src/ib_gateway_mcp/safety/ratelimit.py:204-219 | a new process loads the state file |
| `Breaker.CircuitBreaker.RecordSuccess` | src/ib_gateway_mcp/safety/ratelimit.py:276-279 | a success clears the count but not an open breaker |
| `Breaker.CircuitBreaker.RecordRejection` | src/ib_gateway_mcp/safety/ratelimit.py:281-290 | a rejection counts, and tells whether it opened the breaker |
| `Breaker.CircuitBreaker.SaveState` | src/ib_gateway_mcp/safety/ratelimit.py:305-324 | what the file holds after a write that was done, broken off or not begun |
| `Breaker.CircuitBreaker.ResetBreaker` | src/ib_gateway_mcp/safety/ratelimit.py:292-303 | a reset clears the state and the file, unless its removal fails |
| `Policy.AcceptedExactlyWhen` | src/ib_gateway_mcp/safety/policy.py:407-524 | an order is accepted exactly when every allowlist and every limit is kept, legs included |
| `Policy.ComboFillsStayWithinCap` | src/ib_gateway_mcp/safety/policy.py:250-276 | an accepted combo: amount times price times multiplier, summed over the legs that fill, each up to its part at up to its reference price, stays within the cap |
| `Policy.CappedBuyStaysWithinCap` | src/ib_gateway_mcp/safety/policy.py:228-247 | an accepted capped BUY: amount times price times multiplier stays within the cap at any price from 0 to its limit |
| `Policy.KnownPricesStayWithinCap` | src/ib_gateway_mcp/safety/policy.py:228-247 | any other accepted order has a reference price, and quantity times price times multiplier stays within the cap at it, at its limit and at its stop price |
| `Policy.UncheckableAreRefused` | src/ib_gateway_mcp/safety/policy.py:279-302 | with a cap, no order is accepted with a type whose value has no bound, without a multiplier where one is needed, or with an unpriced leg |
| `Policy.NotionalIsEstimate` | src/ib_gateway_mcp/safety/policy.py:250-276 | the notional is quantity times reference price times multiplier, for a combo the sum over its legs, and none exactly when a price is missing |
| `Policy.BasisExactlyWhen` | src/ib_gateway_mcp/safety/policy.py:228-247 | the price counted is the limit of an order that it caps, else the highest of the reference, limit and stop prices |
| `Policy.RefusalsSayWhatIsWrong` | src/ib_gateway_mcp/safety/policy.py:407-524 | every reason given is true of the order, with the names and numbers quoted, and apart from the notional every true reason is given |
| `Policy.QuantitiesExactly` | src/ib_gateway_mcp/safety/policy.py:464-481 | the shortened leg report loses no quantity violation |
| `Policy.NotionalsExactly` | src/ib_gateway_mcp/safety/policy.py:483-524 | the notional passes exactly when it is checkable, known and within the cap |
| `Policy.SymbolsExactly` | src/ib_gateway_mcp/safety/policy.py:424-436 | symbols pass exactly when allowed, leg by leg for combos |
| `Policy.CodesExactly` | src/ib_gateway_mcp/safety/policy.py:438-462 | security types and currency pass exactly when allowed |
| `Policy.UncheckedExactly` | src/ib_gateway_mcp/safety/policy.py:279-302 | nothing is unchecked exactly when every instrument’s notional can be bounded and its multiplier is known |
| `Policy.SmallerOrdersStayAccepted` | src/ib_gateway_mcp/safety/policy.py:407-524 | acceptance is kept when the quantity shrinks |
| `Policy.LooserLimitsStayAccepting` | src/ib_gateway_mcp/safety/policy.py:407-524 | acceptance is kept when any limit or allowlist is loosened |
| `Policy.EstimateNotional` | src/ib_gateway_mcp/safety/policy.py:250-276 | the loop over the legs computes the plain sum of amount times price times multiplier, or none when a price is missing |
| `Policy.FindQuantityViolations` | src/ib_gateway_mcp/safety/policy.py:464-481 | the loop reports the violations in order, and none exactly when all quantities are within the limit |
| `FaGroups.EveryNameOnce` | src/ib_gateway_mcp/services/_fa_xml.py:226-275 | every name of either configuration is classified exactly once, and no other |
| `FaGroups.ChangesSayWhatHappened` | src/ib_gateway_mcp/services/_fa_xml.py:226-275 | a change is listed exactly when it is what became of its group: added, removed or changed |
| `FaGroups.ChangedAccountsAddUp` | src/ib_gateway_mcp/services/_fa_xml.py:246-264 | a changed group’s accounts are the earlier ones less removed plus added; amounts listed are exactly those that differ |
| `FaGroups.ComparesEqualExactlyWhen` | src/ib_gateway_mcp/services/_fa_xml.py:251-253 | a group counts as unchanged exactly when its method and amounts are |
| `FaGroups.NoChangesExactlyWhen` | src/ib_gateway_mcp/services/_fa_xml.py:226-275 | the change list is empty exactly when every group of either is in the other, the same |
| `FaGroups.NoChangesMeansSameDigest` | src/ib_gateway_mcp/services/_fa_xml.py:217-275 | no change to confirm means the same fingerprint, whatever the order of groups and members |
| `FaGroups.DigestEqualExactlyWhen` | src/ib_gateway_mcp/services/_fa_xml.py:217-223 | fingerprints are equal exactly for the same groups, methods and amounts, an absent method counting as empty and an absent amount as zero |
| `FaGroups.AbsentAndZeroShareADigest` | src/ib_gateway_mcp/services/_fa_xml.py:217-223 | equal fingerprints do not mean no change, even with unique names and accounts: an absent and a zero amount share one |
| `FaGroups.Diff` | src/ib_gateway_mcp/services/_fa_xml.py:226-275 | the loops compute the specified changes and unchanged names |
| `FaGroups.FateOf` | src/ib_gateway_mcp/services/_fa_xml.py:234-256 | what becomes of one name of the later configuration |
| `FaGroups.FindProblems` | src/ib_gateway_mcp/services/_fa_xml.py:165-193 | a proposal has no problems exactly when it is non-empty, its names and accounts are unique and its texts and ids well-formed |
| `FaGroups.GroupProblems` | src/ib_gateway_mcp/services/_fa_xml.py:181-192 | the same for one group |
| `Sorting.SortIsCanonical` | src/ib_gateway_mcp/services/_fa_xml.py:219-222 | sorted lists are equal exactly when they have the same elements, each as often |
| `Prune.PruningKeepsMatches` | src/ib_gateway_mcp/services/fundamentals.py:503-513 | the number of matching keys and scalars is unchanged |
| `Prune.PruningTwiceIsOnce` | src/ib_gateway_mcp/services/fundamentals.py:503-513 | pruning twice is pruning once |
| `Prune.PruningKeepsMentions` | src/ib_gateway_mcp/services/fundamentals.py:495-513 | a tree that mentions the word still does, and one that does not still does not |
| `Prune.PruningLeavesOnlyMatches` | src/ib_gateway_mcp/services/fundamentals.py:503-513 | every key kept matches or leads to a match, and every entry kept mentions the word |
| `Prune.MentionsIsAMatch` | src/ib_gateway_mcp/services/fundamentals.py:495-500 | a tree mentions the word exactly when some key or scalar matches |
| `Quoted.QuotedIsSelfDelimiting` | src/ib_gateway_mcp/models/common.py:63-80 | quoted(a) + x = quoted(b) + y only if a = b and x = y |
| `Quoted.QuotedReadsBack` | src/ib_gateway_mcp/models/common.py:63-80 | a decoder reads quoted text back exactly, whatever follows it |
| `Quoted.QuotedIsVisible` | src/ib_gateway_mcp/models/common.py:63-80 | every character of the output is printable |
| `Quoted.PlainTextIsUnchanged` | src/ib_gateway_mcp/models/common.py:63-80 | printable text without quotes and backslashes is only put between quotes |
| `Quoted.Quote` | src/ib_gateway_mcp/models/common.py:70-80 | the loop builds the quoted text |

## Left out

- Task cancellation in the middle of an open or a resubscribe run, the `stale` flag, `meta`, log lines and error texts of the registry; a start that overlaps an unfinished stop of the connection.
- The order in which a resubscribe pass and a sweep visit the entries of their snapshot: any order is allowed, and a snapshot and the visit of its first entry, one section in the source, are two steps. So what holds in every interleaving holds for the source, and the runs that show a failure keep to its order and its sections.
- HMAC, JSON encoding and token randomness, the deep copies of payloads, the lock around the store, and `created_at`, which the digest does not cover.
- Float rounding and the 28-digit decimal context: times are exact, prices and quantities real.
- Parsing of log lines, XML, HTML and time zones, UTF-8 decoding and the parse cache of the log reader, the sorting of file names and files that change while they are read.
- Wording: hints, details with formatted times, summaries, and lists sorted or shortened for display.
- Upper case other than ASCII in symbols.
- `request_current_time` spacing, liveness probes (they only end in a forced reconnect, which is a step), market data types, hints and last errors of the connection, when resubscribing is triggered, and an exception raised after the state is already up.
- The rejection futures of headline streams, and which error codes are fatal (each error says whether it is), the bulletin stream, the headline buffers, and display-group cancels in the admin service.
- `hooked`, the open-request semaphore of the pacer, settings, tool registration, row converters and the per-service request methods: single-branch facts.
- Services that place orders: their source is not part of this model.

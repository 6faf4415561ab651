# Delivery protocols of the cue and message service

A Dafny model of the three delivery protocols that share one database, one outbox and one
clock, of the concurrency gate and the idempotency window beside them, and proofs of what
they guarantee over every run: cue executions pushed to webhooks, messages that are both
pushed and polled, and an event log with paging, webhook subscriptions and digests.

Each protocol is a state machine: a `State` (or `World`), an `Action` per committed
transaction, worker step or decision of the environment, a total `Apply` (an action whose
guard fails changes nothing, as a conditional UPDATE that matches no row does), and
`Play`, which folds a run. The theorems speak about `Play` of an arbitrary sequence of
actions from an initial state, so every interleaving, crash, redelivery and HTTP result is
covered. Beside each machine stands a class whose methods are the imperative code, loops
included; their `ensures` say that the tables move exactly as the machine does.

| file | what it holds |
|---|---|
| `Common.dfy` | clock, nullable columns, decimal numerals |
| `RetryAfter.dfy` | the `Retry-After` parser |
| `ExecutionProtocol.dfy`, `ExecutionTheorems.dfy`, `ExecutionBackoff.dfy`, `ExecutionStore.dfy` | cue executions: machine and invariant, theorems, the times of POSTs, worker and poller code |
| `MessageProtocol.dfy`, `MessageTheorems.dfy`, `MessageStore.dfy` | messages: machine and invariants, theorems, code over the tables |
| `Inbox.dfy` | the inbox page against the flip |
| `ConcurrencyCap.dfy` | the per-user Redis counter |
| `Idempotency.dfy`, `IdempotencyStore.dfy` | the 24-hour idempotency window and the send |
| `EventLog.dfy` | events, priorities, ordered selections |
| `Paging.dfy` | cursor paging, long polling and ack watermarks, with events that become visible late |
| `DispatchProtocol.dfy`, `DispatchTheorems.dfy`, `SubscriptionDispatcher.dfy` | webhook subscriptions: watermark, debounce, breaker |
| `DebounceRefire.dfy` | when priority 4 can fire again inside the window |
| `AckRewind.dfy` | when a dispatch takes back an explicit ack |
| `Digest.dfy`, `DigestEmitter.dfy` | digest bundles |
| `Schedule.dfy`, `SchedulePoller.dfy` | cue schedules and the drain loop |

## Assumptions

- A SQL transaction is one atomic step; `mark_read` and `mark_acked` are a load and a store.
  There is one global non-decreasing clock.
- A worker's run ends at most 40 s after it starts (worker/main.py:52, app/config.py:12);
  the stale thresholds are 300 s (app/config.py:16, app/config.py:23).
- Execution jobs may be delivered any number of times. Message jobs may be as well; the
  theorems that need each job consumed once say so through `Careful`, which also says that
  no outbox row of a live message is reaped. What fails without it is proved too.
- The quota branch of a deliver job may strike any execution. Only "a live attempt means
  `delivering`" and the absorption of `success` and `failed` ask that it strike pending
  ones (`Confined`); what happens without it is proved too.
- A cue's retry configuration does not change, allows at least one attempt, and has a
  non-empty backoff list.
- For the concurrency counter, INCR and EXPIRE are one step, and Redis answers. For the
  debounce, Redis may fail at the check or at the marker, and a run may die between them.
- The cron library is an arbitrary function with `next(t) > t`.
- One dispatch of one subscription reads at its start and writes at its end; what other
  transactions do to the same subscription in between is ordered before or after it.
  Dispatches do not overlap, as in the one loop of the leading poller: the debounce check
  and its stamp are separate Redis calls, and `HighFiresAreDebounced` needs no second
  dispatch to the same recipient between them.
- Event ids come from a sequence and may become visible in any order. `AckRewoundIff` also
  uses that events and subscriptions are of the known types (app/services/events_service.py:48-52)
  and that only `message.delivered` payloads carry a priority.
- A send may last from the start of its transaction to its insert; `created_at` is the
  transaction's start (app/models/message.py:107).

## Where the code and its documentation differ

The model follows the code.

- worker/poller.py:102 says the drain loop goes on until no cue is due. It stops at the
  first batch that comes short, and one batch gives each cue one turn, so a cue two
  occurrences behind stays due (`NoneLeftIff`, `OutageOutlivesTheDrain`).
- worker/subscription_dispatcher_policy.py:193-196 lets the watermark go to one below the
  lowest deferred id. worker/subscription_dispatcher.py:314-323 writes the last fired id below it.
- worker/tasks.py:599-602 calls the concurrency counter shared with cue deliveries. Only
  the message tasks use it.
- app/models/message.py:112-116 says `delivering_started_at` is cleared on expiry.
  worker/message_cleanup.py:102-109 does not clear it.
- worker/digest_emitter.py:115-130 compares the priority as text, so a textual `"1"` is
  bundled, while `_event_priority` reads any text as the default priority 3.
- app/routers/messages.py:63-65 promises that a replay of the same key and body returns the
  original. Under the empty key no fingerprint is stored, and a replay is a conflict.
- app/services/inbox_service.py:111-116 calls the flip part of the read. It flips messages that the
  page leaves out (`FlippedMissingIff`), all of them under a filter for `queued` alone.
- The 24-hour window separates messages by 24 hours less the duration of the later send,
  because `created_at` is older than the insert (`SameKeyApart`, `SlowSendComesTooClose`).

## Model

| member | source | states |
|---|---|---|
| RetryAfter.HonoursDelaySeconds | app/utils/retry_after.py:43-56 | a header that is any string of digits, however padded, yields the larger of the seconds it denotes and the server's minimum |
| RetryAfter.ParseIntOfSigned | app/utils/retry_after.py:43-56 | a sign in front of any numeral is read, as the number or its negative |
| RetryAfter.ParseIntOfGrouped | app/utils/retry_after.py:43-56 | one underscore between digits is read over |
| RetryAfter.DoubleUnderscoreIsRefused | app/utils/retry_after.py:43-56 | two underscores in a row are no number |
| RetryAfter.SpaceColumns | app/utils/retry_after.py:40-43 | exactly the ASCII white space is stripped |
| ExecutionTheorems.SafeInEveryRun | worker/tasks.py:186-498 | in every run, whatever quota writes strike: attempts of one execution exclude each other, `attempts` counts recorded POSTs within budget, `run_count` is their sum per cue, and every open execution has a row, a job or a due time carrying it, or is delivering and stale 300 s after its last touch |
| ExecutionTheorems.LiveMeansDelivering | worker/tasks.py:186-212 | where quota writes strike only pending executions, a live attempt always means `delivering` |
| ExecutionTheorems.TerminalLeftIff | worker/tasks.py:228-241 | at every state of every run, one step leaves `success` or `failed` if and only if it is the quota write on a succeeded execution, or the outcome write of an attempt still live on a failed one, unless that attempt fails too and was the last |
| ExecutionTheorems.OwnershipLostIff | worker/tasks.py:404-413 | one step takes the row of a live attempt from `delivering` if and only if it is the quota write of that execution |
| ExecutionTheorems.QuotaBlockDuringAttempt | worker/tasks.py:404-413 | a run in which a redelivered deliver job over quota fails the row under a live attempt, whose outcome then turns `failed` into `success` |
| ExecutionTheorems.TerminalAbsorbing | worker/tasks.py:186-379 | `success` and `failed` are absorbing in every continuation with confined quota writes, from every state in which live attempts deliver |
| ExecutionTheorems.CanStillPost | worker/poller.py:235-489 | from every reachable state an open execution has a continuation that POSTs it again |
| ExecutionTheorems.NoExecutionIsLost | worker/poller.py:146-489 | whatever happened before, every open execution has a continuation in which it succeeds |
| ExecutionTheorems.CrashesAreNeverCharged | worker/poller.py:416-472 | crashed attempts cost no budget: any number of further POSTs is possible with no attempt recorded |
| ExecutionBackoff.OutcomeColumns | worker/tasks.py:215-321 | in every run, recording attempt `n` writes success; or retrying, due 60 s times entry `n` of the retry list later, while the budget lasts; or failed |
| ExecutionBackoff.BackoffIsHonoured | worker/tasks.py:288-308 | in every run, after recorded failure `n` no POST of that execution comes sooner than entry `n`'s minutes later, through crashes, duplicates, stale recovery and quota writes |
| ExecutionBackoff.FailedMeansExhausted | worker/tasks.py:309-321 | in every run without a quota write, a failed execution has used up its attempts |
| ExecutionBackoff.SendAtIsHonoured | app/routers/cues.py:166-186 | in every run, no execution is POSTed before the time it was to be sent |
| ExecutionBackoff.FireColumns | worker/poller.py:146-208 | a fire makes one pending execution and one undispatched deliver row for its send time |
| ExecutionBackoff.ReapedIff | worker/poller.py:852-869 | the outbox loses exactly dispatched rows more than seven days old |
| ExecutionBackoff.EnvironmentColumns | worker/main.py:52-52 | time, a lost run, a lost dispatch transaction and a heartbeat do what they may and no more; a run is live for 40 s |
| ExecutionTheorems.QuotaBlockOverwritesSuccess | worker/tasks.py:397-421 | a run in which a redelivered deliver job over quota turns a succeeded execution into a failed one |
| ExecutionProtocol.StepKeeps | worker/tasks.py:186-585 | every step of workers, poller and cleanup, the unguarded quota write included, keeps exclusion, carriers, accounts and run counts |
| ExecutionProtocol.FinishKeeps | worker/tasks.py:215-379 | recording an outcome keeps the accounts: the attempt number read is still the next one |
| ExecutionProtocol.RecoverKeeps | worker/poller.py:416-472 | stale recovery never takes an execution from a live attempt and always retries it |
| ExecutionStore.Tables.ClaimExecution | worker/tasks.py:186-212 | the conditional UPDATE succeeds exactly in the expected status, and is the claim step |
| ExecutionStore.Tables.RecordOutcome | worker/tasks.py:215-379 | the outcome transaction, column by column: run count, status, attempts, and the due time in minutes of the attempt's entry |
| ExecutionStore.Tables.PollRetries | worker/poller.py:235-327 | the loop is one poll step per selected execution; exactly those move to `retry_ready`, with one row each |
| ExecutionStore.Tables.DispatchRow | worker/poller.py:351-393 | one row: enqueued and marked, or counted as a failed dispatch |
| ExecutionStore.Tables.DispatchOutbox | worker/poller.py:330-405 | a row of the batch ends dispatched with its job queued if and only if its enqueue succeeded, and the result counts those |
| ExecutionStore.Tables.RecoverStaleExecutions | worker/poller.py:408-489 | the loop keeps the invariant; exactly the selected executions change, all to `retrying`, uncharged, due after the minutes of the lost attempt's entry: the exhausted branch is never taken |
| MessageTheorems.OnePushInFlight | worker/tasks.py:759-793 | in every run, duplicated jobs included, at most one push attempt of a message is in flight |
| MessageTheorems.QueuedIsLeftOnce | app/services/inbox_service.py:215-239 | a message flipped by the inbox poll is never pushed in any continuation, and one pushed is never flipped |
| MessageTheorems.TerminalLeftIff | worker/tasks.py:832-920 | one step leaves `acked` or `expired` if and only if it is the outcome write of an attempt still in flight, or the write of a read request, or of an ack over `expired`, that loaded the row earlier |
| MessageTheorems.TerminalAbsorbing | app/services/message_service.py:527-563 | with no attempt in flight and no request holding an older row, `acked` and `expired` are absorbing and nothing more is pushed |
| MessageTheorems.LateReadOverwritesAck | app/services/message_service.py:510-539 | a read request that loaded the row before an ack was stored turns `acked` into `read` |
| MessageTheorems.AtMostFourPushes | worker/tasks.py:846-885 | at most four push attempts in every careful run, counting retries, cap recycles, crashes and stale recovery |
| MessageTheorems.AttemptsAreSpaced | worker/tasks.py:846-879 | consecutive attempts start at least 60 s apart; after a retryable result of attempt 1, 2, 3 no sooner than 60, 300, 900 s and the seconds of a digit-string `Retry-After`; after a lost attempt past 300 s; none follows a success or refusal |
| MessageTheorems.SendAtIsHonoured | app/services/message_service.py:302-312 | in every run, no message is pushed or handed to a poll before its send time |
| MessageTheorems.DeliveringGoesStale | worker/poller.py:518-533 | in every run, a delivering message is recoverable once 300 s more have passed |
| MessageTheorems.RecycleColumns | worker/tasks.py:640-666 | a job over the cap goes back with the same task and attempt, due in 30 s |
| MessageTheorems.FinishOfDeleted | worker/tasks.py:846-885 | a retry row is inserted even where the message was deleted meanwhile |
| MessageTheorems.ReapedIff | worker/poller.py:852-869 | the outbox loses exactly dispatched rows more than seven days old |
| MessageTheorems.EnvironmentColumns | worker/main.py:52-52 | time, a lost attempt, a lost dispatch transaction, a dead job and a changing recipient do what they may and no more; an attempt is live for 40 s |
| MessageTheorems.StrandedIff | worker/tasks.py:718-730 | one step strands a message in `retry_ready` if and only if it runs the retry job while the recipient has no webhook, or an agent or the user is gone, or it dies before the claim |
| MessageTheorems.StrandedRunIff | worker/tasks.py:686-756 | over every careful run, a message in `retry_ready` has neither row nor job if and only if some run of its job was such a step |
| MessageTheorems.ClearedWebhookStrands | worker/tasks.py:718-730 | a webhook cleared between a retryable result and its retry does strand the message |
| MessageTheorems.StrandedForGood | worker/tasks.py:718-730 | a stranded message is never pushed again in any continuation |
| MessageTheorems.LateOutcomeOverwritesAck | worker/tasks.py:833-841 | an ack during a push is overwritten by the late result |
| MessageTheorems.DuplicatesBreakTheBudget | worker/tasks.py:1048-1048 | with duplicated retry jobs there is a run with more than any given number of pushes, all but the first at one moment: budget, spacing and backoff break together |
| MessageTheorems.ReapingBreaksTheBudget | worker/poller.py:852-869 | with rows of live messages reaped there is one too, though every job is consumed once |
| MessageProtocol.StepKeeps | worker/tasks.py:774-920 | every step keeps the state invariant of a message |
| MessageProtocol.StepOrderly | worker/poller.py:536-599 | every careful step keeps: undispatched rows, queued jobs and the attempt in flight are at most one, attempts never exceed dispatched rows, and all are numbered within the budget |
| MessageProtocol.ReapOrderly | worker/poller.py:852-869 | reaping a row of a settled message keeps that order |
| MessageStore.Mailbox.ClaimMessage | worker/tasks.py:759-793 | the claim succeeds exactly in the expected state, moves this message one claim step and no other |
| MessageStore.Mailbox.RouteAttemptOutcome | worker/tasks.py:796-929 | the outcome, column by column: `delivered`; or below four attempts `retry_ready` with one row for the next attempt, due after the larger of 60, 300 or 900 s and the header; or `failed`; it is one finish step of this message and of no other |
| MessageStore.Mailbox.FlipInbox | app/services/inbox_service.py:215-239 | exactly the due queued messages to the agent, from the named counterpart if any, take a poll step |
| Inbox.FlippedMissingIff | app/services/inbox_service.py:176-258 | a message that a poll flips is missing from its page if and only if the filter leaves out `delivered`, `since` or the thread drops it, it came due between the two clock readings, or its rank is outside offset and limit |
| Inbox.QueuedFilterReturnsNothingFlipped | app/services/inbox_service.py:176-258 | a poll for `queued` alone flips the due messages and returns none of them |
| Inbox.OnPageIff | app/services/inbox_service.py:245-258 | a message is on the page exactly if it passes the filters and its rank among those that do is in the window |
| MessageStore.Mailbox.LoadMark | app/services/message_service.py:520-534 | the load decides: refused exactly on terminal rows, but an ack of an acked one succeeds; a store follows exactly if the row is to change |
| MessageStore.Mailbox.StoreMark | app/services/message_service.py:534-563 | the store writes by id, whatever the row has become, and touches no other |
| MessageStore.Mailbox.Mark | app/services/message_service.py:510-563 | a read or ack with nothing in between: refused exactly on terminal rows, changing nothing; repeated acks succeed; done means marked |
| MessageStore.Mailbox.CountDispatched | worker/poller.py:543-548 | the attempts charged are the dispatched rows that name the message |
| MessageStore.Mailbox.RecoverStaleDeliveries | worker/poller.py:492-611 | the loop is one recovery step for each selected message and none for the others |
| MessageStore.Mailbox.ExpireOldMessages | worker/message_cleanup.py:102-109 | exactly the messages past their time and not terminal become expired; one expiry step of every message |
| MessageStore.Mailbox.CleanupExpiredMessages | worker/message_cleanup.py:120-182 | the batched loop deletes exactly the messages acked, or expired past their time, more than seven days ago, counts them, and is one delete step of every message |
| MessageStore.TakeUpTo | worker/message_cleanup.py:166-171 | a batch is at most the limit, and empty only when nothing is eligible |
| ConcurrencyCap.CapHolds | worker/tasks.py:622-683 | in every run the counter is the visits in progress plus the leaks, and at most the cap are delivering |
| ConcurrencyCap.ExpiresOnlyWhenIdle | worker/tasks.py:622-666 | the key expires only when nobody is inside, so a DECR never meets an absent key |
| ConcurrencyCap.LeaksHeal | worker/tasks.py:622-683 | 600 s after the last entry every slot leaked by a crash is free again |
| ConcurrencyCap.KeyOutlivesEntry | worker/tasks.py:622-634 | the counter lives on for at least 600 s after every entry |
| ConcurrencyCap.CrashLeaks | worker/tasks.py:669-683 | a crash ends a visit without its decrement and keeps the slot as a leak |
| ConcurrencyCap.CutOffIff | worker/main.py:52-52 | a visit is cut off exactly past 40 s |
| ConcurrencyCap.Gate.CheckConcurrentCapOrRecycle | worker/tasks.py:589-666 | admits exactly when the counter is below the cap; otherwise gives the increment back and sends the payload to the outbox, due 30 s later |
| ConcurrencyCap.Gate.ReleaseConcurrent | worker/tasks.py:669-683 | the decrement is one leave step |
| Idempotency.SameKeyApart | alembic/versions/021_messaging_messages.py:240-244 | in every run of sends, acks, expiry, key freeing and hard deletion, two messages with one user and key were created more than 24 h apart, less the time the later send took |
| Idempotency.SlowSendComesTooClose | app/services/message_service.py:268-275 | a send begun before the window closes and inserted after the key is freed comes too close by that much, in a run whose sends last no longer than its own |
| Idempotency.WindowKeptIff | app/models/message.py:107 | all runs whose sends last at most a limit keep messages of one key 24 h apart if and only if that limit is zero |
| Idempotency.ReplayInsideTheWindow | app/services/message_service.py:259-283 | in every run, inside the window, a lookup under a message's key answers with that message: the original for the same fingerprint and a non-empty key, a conflict for all else, and the send changes nothing |
| Idempotency.RefusedOnlyBeforeFreeing | worker/message_cleanup.py:203-238 | after a freeing pass the index refuses an unanswered send only at the exact edge of the window |
| Idempotency.NotTakenMeansOld | worker/message_cleanup.py:138-175 | a key absent from the index was last used by messages created more than 24 h ago, though their rows may be deleted |
| Idempotency.ExpiredIff | worker/message_cleanup.py:102-109 | expiry takes exactly the open messages past their time |
| Idempotency.CleanedUpIff | worker/message_cleanup.py:138-238 | deletion takes exactly messages terminal for seven days; freeing exactly the keys of messages older than 24 h |
| Idempotency.AckColumns | app/services/message_service.py:559-560 | an ack stamps its time and changes nothing else |
| Idempotency.EnvironmentColumns | app/services/message_service.py:259-275 | a send begins with what it was given, and one that fails before its insert leaves nothing |
| IdempotencyStore.MessageTable.CreateMessage | app/services/message_service.py:259-346 | the send is one atomic begin, lookup and insert, with the new row column by column; replay, conflict and index violation leave the table as it was |
| IdempotencyStore.MessageTable.FindKey | app/services/message_service.py:268-275 | finds a message of the window if there is one, and whether the index holds the key |
| IdempotencyStore.MessageTable.FreeOldIdempotencyKeys | worker/message_cleanup.py:185-244 | the bulk UPDATE frees and counts exactly the keys older than the window |
| EventLog.TakenPrefix | app/services/events_service.py:300-317 | with ORDER BY id LIMIT, whatever precedes a returned event is returned |
| EventLog.SortedUnique | app/services/events_service.py:300-317 | in id order the members determine the page |
| EventLog.PriorityColumns | worker/subscription_dispatcher_policy.py:65-89 | a priority counts only as an integer from 1 to 5 or as `true`; all else is 3; high is 4 |
| Paging.PageFacts | app/services/events_service.py:275-317 | a page is exactly the matching events between the cursor and the next cursor; one without `has_more` reaches the end |
| Paging.PagingRefinesTheLog | app/services/events_service.py:300-317 | following `next_cursor` from 0, with any limits, while events become visible in any order and are cleaned up, hands over exactly the matching events up to the cursor, in order, less those deleted unread and those that came late |
| Paging.LateIff | app/services/events_service.py:300-317 | nothing is late if and only if every event became visible ahead of the cursor |
| Paging.LateIsNeverHandedOver | app/services/events_service.py:305-305 | an event that became visible behind the cursor is handed over in no continuation |
| Paging.NoMoreMeansTheEnd | app/services/events_service.py:305-317 | after `has_more = false` a matching event in the log has been handed over if and only if it is not late |
| Paging.AckedWasReturned | app/services/events_service.py:477-524 | without explicit acks, an event of the subscription's type up to its ack watermark was handed over if and only if it was neither deleted unread nor late |
| Paging.PullColumns | app/services/events_service.py:508-524 | a pull that returns something hands over its page, moves the cursor to its last id, and acks each attached subscription of the pulled type up to there, and no other |
| Paging.AckFollowsTheCursor | app/routers/events.py:365-403 | in every run, each subscription the last written ack was for stands exactly at that pull's cursor; if no ack write failed, that is the consumer's cursor |
| Paging.Subscriptions.AdvanceAckWatermark | app/services/events_service.py:477-524 | exactly the attached subscriptions of the type that are behind move to the id, and their number is returned |
| Paging.PageSize | app/services/events_service.py:300-317 | a limit counts from 1 to 1000, and `has_more` means a full page |
| Paging.DetachColumns | app/services/events_service.py:442-474 | detaching keeps the ack |
| Paging.EnvironmentColumns | worker/subscription_dispatcher.py:412-437 | subscribing, visibility and cleanup do what they may and no more |
| Paging.PullKeeps | app/routers/events.py:365-403 | a pull, with its ack advance, keeps acks at or below the cursor |
| Paging.LongPollWait | app/routers/events.py:406-461 | the result is the page of the first internal poll that finds anything, and empty only if none does |
| DispatchTheorems.WatermarkSafety | worker/subscription_dispatcher.py:306-341 | in every run an event at or below a subscription's watermark was in a 2xx batch, was cleaned up, or became visible only after the watermark stood there |
| DispatchTheorems.InOrderNothingLate | worker/subscription_dispatcher.py:163-183 | if ids become visible in increasing order, the third case never occurs |
| DispatchTheorems.WatermarkNeverDecreases | worker/subscription_dispatcher.py:306-341 | the dispatch watermark never moves back in any run |
| DispatchTheorems.VisibleTooLateIsLost | worker/subscription_dispatcher.py:173-183 | an event that becomes visible at or below a watermark is delivered in no continuation |
| DispatchProtocol.FiredIsNotPendingAgain | worker/subscription_dispatcher.py:306-341 | after a committed 2xx no fired event that precedes every deferred one is pending again |
| DispatchTheorems.CleanedUpIff | worker/subscription_dispatcher.py:412-437 | the log loses exactly events emitted more than seven days ago |
| DispatchTheorems.DetachedIsSilent | app/services/events_service.py:442-474 | a detached subscription is POSTed in no continuation |
| DispatchTheorems.AckColumns | app/services/events_service.py:527-560 | an explicit ack moves an attached subscription up, never down, and no other |
| DispatchTheorems.EnvironmentColumns | worker/subscription_dispatcher.py:138-160 | time, new subscriptions and visibility do what they may and no more; a subscription is due once its pause is over |
| DispatchTheorems.DeliverableIff | worker/subscription_dispatcher.py:163-183 | an undelivered event in the log can still be delivered if and only if the watermark is below it |
| DispatchTheorems.DrainTo | worker/subscription_dispatcher.py:230-405 | dispatching reaches every event above the watermark |
| AckRewind.AckRewoundIff | worker/subscription_dispatcher.py:327-341 | at every state that known event types reach, some continuation takes an ack back if and only if its subscription is an attached webhook, the ack is ahead of the dispatch watermark, and either its events can be held back or a batch may come to end below the ack |
| AckRewind.NextIdIsSafe | app/services/events_service.py:48-52 | for a type whose events carry no priority, an ack of one past the watermark is taken back by no continuation |
| AckRewind.AckAheadIsRewound | worker/subscription_dispatcher.py:339-339 | from a fresh database, an ack ahead to any `n >= 2` stands at 1 after the first event is dispatched |
| DispatchTheorems.AckBehindIsKept | worker/subscription_dispatcher.py:327-341 | no continuation takes back an ack at or below the dispatch watermark |
| DispatchTheorems.DebouncedIff | worker/subscription_dispatcher_policy.py:97-159 | a recipient is debounced exactly while a priority-4 fire that left its marker ended within the last window: the marker outlives it |
| DispatchTheorems.HighFiresAreDebounced | worker/subscription_dispatcher_policy.py:162-243 | in every run, after a fire that left its marker the next priority-4 fire to that recipient that could look for it is a window later, across all subscriptions, and such an event is deferred if and only if a marked fire ended within the last window |
| DebounceRefire.RefiredIff | worker/subscription_dispatcher.py:306-351 | at every state of every run, after a priority-4 fire some continuation fires priority 4 to that recipient again inside the window if and only if there is a window and no fire of that moment left its marker |
| DebounceRefire.CheckedRefiredIff | worker/subscription_dispatcher.py:327-351 | where Redis answered the check: if and only if this fire died, or Redis failed, between the 2xx and its marker |
| DispatchTheorems.BreakerHolds | worker/subscription_dispatcher.py:357-384 | `consecutive_failures` counts recorded failures since the last recorded success; from ten on, every POST, recorded or lost, starts more than 3600 s after every earlier recorded one |
| DispatchTheorems.TooSoonIff | worker/subscription_dispatcher.py:218-260 | at every state of every run, a tripped subscription can be POSTed again within the hour if and only if the last POST was lost with its cycle's transaction |
| DispatchProtocol.FireCovers | worker/subscription_dispatcher.py:306-341 | the watermark moves only over events in this 2xx batch |
| DispatchProtocol.NewWatermarkFacts | worker/subscription_dispatcher.py:314-325 | the new watermark is the old one or a fired id, below every deferred id, and the highest such: no fired event before all deferred ones is above it |
| DispatchProtocol.SplitFacts | worker/subscription_dispatcher_policy.py:202-222 | every event of a batch fires or is deferred, only priority 4 is deferred, order is kept |
| DispatchProtocol.StepKeepsWatermarks | worker/subscription_dispatcher.py:230-437 | dispatch, emit, cleanup, subscribe, detach and ack keep watermark safety |
| SubscriptionDispatcher.FetchPendingEvents | worker/subscription_dispatcher.py:163-183 | the first fifty wanted events past the watermark, in id order, and all of them if fewer |
| SubscriptionDispatcher.ApplyTierPolicy | worker/subscription_dispatcher_policy.py:162-222 | an event is deferred exactly when it is priority 4 and the recipient is debounced |
| SubscriptionDispatcher.ComputeWatermark | worker/subscription_dispatcher.py:314-325 | the minimum and the scan compute the highest fired id before every deferred one, or keep the watermark |
| SubscriptionDispatcher.Dispatcher.RecordSuccess | worker/subscription_dispatcher.py:327-351 | the writes after a 2xx, column by column: watermark and ack, failures reset, the pause kept, and the marker if priority 4 was fired and the run got there |
| SubscriptionDispatcher.Dispatcher.RecordFailure | worker/subscription_dispatcher.py:357-384 | the writes after any other answer: one more failure, and from ten on a pause of 3600 s |
| SubscriptionDispatcher.Dispatcher.DispatchSubscriptionEvents | worker/subscription_dispatcher.py:230-405 | a cycle, committed or rolled back, with or without the marker of each POST, is one dispatch step per due subscription, in order, each with its webhook's answer; it keeps watermark safety and returns the number of POSTs |
| Digest.DigestsPartition | worker/digest_emitter.py:133-216 | in every run, in whatever order ids become visible, an event is marked digested exactly when an inserted digest bundles it, no event is in two bundles or twice in one, only low-priority deliveries are bundled, and every digest row is addressed to its bundle's recipient |
| Digest.NoBundleIsDropped | app/services/events_service.py:251-268 | in every run a turn that meets the threshold inserts one digest of exactly the waiting events, addressed to the recipient under the key of the highest: the upsert's conflict path is never taken |
| Digest.KeyIsFresh | worker/digest_emitter.py:191-191 | a new digest's idempotency key collides with no stored digest |
| Digest.DigestKeyInjective | worker/digest_emitter.py:191-191 | recipient and highest id can be read back from the key, whatever characters the recipient holds |
| Digest.TurnEffect | worker/digest_emitter.py:165-202 | a turn inserts the digest row and marks exactly its sources |
| Digest.MarksColumns | worker/digest_emitter.py:197-202 | each bundled row is digested now and every other row is as it was |
| Digest.EligibleIff | worker/digest_emitter.py:115-124 | exactly undigested deliveries of priority 1 or 2 to the recipient wait |
| Digest.EmitColumns | app/services/events_service.py:251-268 | an event is in the table, waiting, unless its id or key is taken |
| Digest.CleanedUpIff | worker/subscription_dispatcher.py:412-437 | the table loses exactly rows emitted more than seven days ago |
| Digest.TimePasses | worker/digest_emitter.py:158-160 | time never goes back |
| DigestEmitter.GroupByRecipient | worker/digest_emitter.py:97-130 | the dictionary maps exactly the recipients with waiting events to their ids in order, and lists each once |
| DigestEmitter.OthersUntouched | worker/digest_emitter.py:165-202 | a recipient's turn leaves every other recipient's waiting events as they were |
| DigestEmitter.Emitter.EmitDigests | worker/digest_emitter.py:133-216 | a cycle is one digest turn per recipient with waiting events, and returns the number of digests inserted |
| Schedule.EveryOccurrenceFiresOnce | worker/poller.py:146-230 | in every run each occurrence of a recurring cue before `next_run` has an execution, the poller made no others, and `fired_count` is what it inserted, whatever slots manual fires took |
| Schedule.TurnKeeps | app/models/execution.py:63 | a turn fills the next occurrence exactly once, by the unique slot |
| Schedule.ManualKeeps | app/routers/cues.py:128-206 | a manual fire disturbs no schedule, even in a slot the poller would take |
| Schedule.EnvironmentColumns | app/routers/cues.py:128-206 | a manual fire takes exactly its slot, and time never goes back |
| SchedulePoller.BatchEffect | worker/poller.py:146-230 | a batch gives each of its cues one turn and touches no other, whatever the order |
| SchedulePoller.NoneLeftIff | worker/poller.py:101-109 | a batch of all due cues leaves none due if and only if none was more than one occurrence behind |
| SchedulePoller.OutageOutlivesTheDrain | worker/poller.py:101-109 | an hourly cue two hours or more behind is still due after the batch of all due cues, at which the loop stops |
| SchedulePoller.SelectDue | worker/poller.py:119-144 | the query answers distinct due cues, earliest first, as many as the limit allows |
| SchedulePoller.Poller.ProcessCueBatch | worker/poller.py:112-232 | the batch transaction is one turn of each selected cue at its own reading of the clock |
| SchedulePoller.Poller.PollDueCues | worker/poller.py:101-109 | the drain is a run of batches, each at its own reading of the clock; at the last one the cues still due are exactly those whose turns did not catch them up; short of its bound every due cue had one; if one batch held all due cues, those left are the ones further behind |

## Left out

- HTTP calls, signing, URL checks, emails and templates: a push result is success, retryable with an optional `Retry-After`, or terminal.
- `classify_response` and `classify_exception`: a flat table; only its three-way verdict matters.
- Worker-transport claims and leases: `recover_stale_executions` has no transport filter (worker/poller.py:422-425), so its 300 s cut across the 900 s lease.
- The poller's leader lock: its renewal is two Redis calls; row locks and atomic transactions are relied on instead.
- Monthly usage and grace, rate limiters, sessions and IPC, auth, agents, alerts, echo and body middleware: single-branch logic or plumbing.
- Failure escalation (emails, webhooks, `on_failure.pause`), one-time cue status updates and edits or pauses of a cue during a run.
- The two transactions of `list_inbox`: nothing happens between the flip and the page, and `count_only` is not modelled.
- Redis or database errors in the cap check, and the branch without Redis that admits everyone.
- Digest previews, inline bodies and per-tier counters: they feed no decision.
- Dry runs of the cleanup tasks: they only count.
- Non-ASCII digits and white space in `Retry-After`, the interpreter's limit on digits of an integer, and timedelta overflow: the last two raise, which the machines cover as a crash of the run.
- The early steps of `create_message` (addresses, authorization, rate limits, quota, thread): a send that fails there is an abandoned request; the priority downgrade enters through the fingerprint it is given.
- Fingerprints are compared as given: that different requests have different SHA-256 digests is not part of the model.
- `skip_locked` in the drain: nothing is skipped.
- ExecutionStore.Tables.RecordOutcome: leaves out `last_run` and the status of a one-time cue, which feed no delivery decision.

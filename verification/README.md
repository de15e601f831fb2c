# Release notifier: the onboarding saga and the quota-bound scanner

The system watches GitHub repositories and mails subscribers about new releases. This project
models its two protocols and proves what each promises over whole runs.

**Onboarding.** Subscribe commits a pending row, a saga and an outbox event in one transaction.
A relay publishes the event, the notifier turns it into a delivery command once per dedup key,
the mailer sends the mail and reports the outcome, and an orchestrator or a timeout reaper settles
the saga. Each service is a class or a set of functions in its own module (`Outbox`, `Broker`,
`SagaStore`, `Handlers`, `Notifier`, `Mailer`, `Orchestrator`). `Onboarding` puts them together as
one step machine; `OnboardingInvariant` proves what every step keeps, `OnboardingTheorems`,
`Duplicates` and `MailSources` what that means for runs, and `Conformance` that its steps are the
services'.

**Scanning.** A producer claims idle repositories into a bounded queue, workers scan them with
conditional requests through a response cache, and the request rate follows the rate limits read
from response headers (`Scanner`, `Processor`, `Cache`, `RateLimit`, `Quota`).

## How the model is set up

- A call across the network ends as `Done`, `FailedLanded` (an error although the effect happened)
  or `FailedNotLanded`. A transaction commits, rolls back, or commits although the caller sees an
  error.
- A database transaction is atomic, and outbox ids are taken as assigned in commit order.
- In the machine a step that is not enabled changes nothing, so every finite sequence of actions is
  a run and a statement about all sequences is a statement about all interleavings. Confirm,
  Unsubscribe and Subscribe are a read step and a later save step. Any worker may crash at any step
  (`Drop`). A delivery may be taken back and delivered again while its handler goes on (`Recall`):
  that handler's ack and nack then do nothing, and its publishes still count. A key may expire at any time, and the relay may publish any row, which covers more runs
  than the relay's own order; that order is proved in `Outbox`.
- In the methods, what other sessions commit between two statements of a handler is a function
  parameter that must keep the table invariant and may only let sagas move forward (`Rely`).
- History fields (`issued`, `commits`, `mails`, `failed`, `reaped`, `lost`, `log`) record what
  happened; no step reads `mails`, `failed`, `reaped` or `lost` to decide anything.
- Saving a row that was soft-deleted after it was read inserts it again, as GORM's Save does.
- Times are integers and rates are real numbers. The TTL product and the Retry-After duration wrap
  as int64 does.

## What was found

- Accounting for open sagas holds except for five windows, and each of them is real: for each there
  is a run that passes only it and leaves an open saga with no message anywhere. A publish that
  landed although it reported an error opens none of them. One window needs no crash and no failed
  call but a publish, a channel and a nack: the handler that set the mark outlives its delivery, the
  redelivery is skipped as a duplicate, and the handler then fails to publish and to retry.
- A message whose attempt header is negative or the largest int64 is dropped by a confirmed and
  acked Retry: the incremented count, an int64 sum, names a tier queue that does not exist, and the
  broker confirms a publish to a missing queue. Every other settlement keeps the message. No
  service writes such a header, as long as there are fewer than 2^63 - 1 tiers.
- After a sweep a pending row may still carry a swept token: a run shows the orchestrator completing
  the saga between the query and the write. A Compensate leaves such a row exactly when the saga is
  no longer open, and after the sweep the saga of such a row is completed.
- A cached 304 stops matching the stored ETag exactly when the cache fails on both of its operations
  in one request whose new ETag is committed. The freshness bound of one TTL holds even then.
- Both fail without any fault when a new row starts with a live 304 of an older row in the cache: a
  moved repository is deleted and subscribed to again within the cache's TTL, the first scan takes
  the old 304 for its own, and commits the empty tag. Starting without one is exactly the condition
  for the match, and for the freshness of a repository that has no empty tag and whose id is the
  origin's when the row is new.
- The quota reserve is kept because a permit leads to at most two requests. The HTTP client follows
  redirects, so a renamed repository can cost more; for more than two the bound of 4 fails, by any
  amount, even with one worker and exact headers.
- A release is announced to nobody when the read of its subscribers fails: the tag is committed
  without events, and no later run of scans of the same origin announces it.
- A repository is left in `processing` with nobody to scan it by exactly three kinds of step (a claim
  that is not queued, a failed final commit, a crash), and only a restart whose recovery commits
  frees it.
- The relay's outer loop does not end while full batches delete nothing. Without new rows each such
  batch postpones the end by one round beyond the number of rows, and nothing else does.
- A move of a repository without subscribers to notify is not one transaction: the rows may end up
  unsubscribed and the repository kept.
- `docs/adr/006_orchestrated_saga.md` says StaleAfter comfortably outlasts the retries. With the
  defaults the scheduled waits alone are 1878 s and StaleAfter is 1800 s; the bound is proved over
  the parameters.
- The tier TTLs of a doubling policy never decrease exactly while the last one fits in int64.

## Model

| member | source | states |
|---|---|---|
| OnboardingTheorems.Accounting | docs/adr/006_orchestrated_saga.md:100-150 | In every run, the token of a saga still awaiting delivery is in an outbox row, in a broker delivery that is neither merely waiting for its ack nor a command whose report has landed, or with a handler that outlived its delivery and still owes the command or a retry, unless it passed one of five named windows |
| OnboardingTheorems.EveryWindowIsReal | internal/worker/notifier/notifier.go:67-86 | For each window (crash after mark, mark error that landed, failed unmark after a publish that did not land, result report given up with no try landed, handler taken back and giving up after its redelivery was skipped) a concrete run passes only it and ends with an open saga, an empty outbox and empty queues |
| Conformance.OnlyWindowsLose | internal/worker/notifier/notifier.go:67-86 | A step records a token as lost if and only if it passes one of the five windows with it, each written out as a condition on the step and the state before it |
| OnboardingTheorems.SweepCanLeaveAPendingRow | internal/worker/orchestrator/reaper.go:45-63 | A concrete run in which the reaper finds a token stale, visits it, and a live pending row still carries it: the orchestrator completed the saga in between |
| OnboardingTheorems.Provenance | internal/worker/mailer/mailer.go:86-106 | In every run a completed saga's verification mail was accepted by SMTP, addressed to the email Subscribe committed with exactly that token |
| MailSources.EveryMailHasAnEvent | internal/worker/notifier/notifier.go:91-116 | In every run each mail SMTP accepted is the mail of an event that was committed to the outbox: to that event's address, with its repository and tag or its token |
| MailSources.MailOfEvent | internal/worker/mailer/mailer.go:191-208 | Command mapping and template together make that mail for the three kinds of event and nothing for any other |
| OnboardingTheorems.CompensationHasACause | internal/worker/orchestrator/store.go:65-85 | In every run a compensated saga had its send give up, or was compensated by the reaper when older than StaleAfter |
| OnboardingTheorems.NoStrandedPending | internal/worker/orchestrator/store.go:65-85 | In every run each live pending subscription has a saga with its token that is awaiting or completed, never compensated, although handlers save rows they read earlier |
| OnboardingTheorems.EveryResultHasASaga | internal/worker/orchestrator/orchestrator.go:70-77 | Every message in the saga's queues names an existing saga, so the "unknown saga" ack and the foreign-event dead letter are unreachable |
| OnboardingTheorems.TierDiscipline | internal/infra/rabbitmq/consumer.go:180-215 | In every run a copy in tier i is on attempt i+1 in a declared tier, and every copy carries 0 to Tiers attempts |
| OnboardingTheorems.OnlyExhaustedRetriesAreDeadLettered | internal/infra/rabbitmq/consumer.go:180-185 | No message the services produce is poison: one in a dead-letter queue has used up every tier |
| OnboardingTheorems.MessagesLeaveOnlyByAck | internal/infra/rabbitmq/consumer.go:177-264 | A message leaves the broker exactly by the ack of a delivery that was not taken back; every other step leaves it there under its identity or that of its redelivery, with its body and queue set |
| OnboardingTheorems.SettlesOnce | internal/worker/orchestrator/store.go:49-85 | Over any interleaving of orchestrators, reapers and redeliveries exactly one settling write succeeds for a terminal saga and none for an open one |
| OnboardingTheorems.SettlementsCount | internal/worker/orchestrator/store.go:49-85 | The same from any state that satisfies the invariant, together with: sagas are never removed and never leave a terminal state |
| OnboardingTheorems.ActiveIsNeverDeleted | internal/worker/orchestrator/store.go:81-83 | No step deletes a subscription that is active when the step is taken |
| Conformance.SubscriptionCanBecomeActive | internal/transport/http/handlers/subscription.go:204-241 | A concrete run of the machine: Subscribe, the mail with the token accepted, Confirm, and the row is live and active with its API token |
| Conformance.FinishConfirmExactly | internal/transport/http/handlers/subscription.go:224-236 | Confirm's save over the row as it was read: email, repository and confirm token kept, active and live with the new API token, nothing else in the world changed; no change at all if the row was active, the indexes refuse it or the save rolls back |
| Conformance.FinishUnsubscribeExactly | internal/transport/http/handlers/subscription.go:273-279 | The same for Unsubscribe |
| Conformance.FinishSubscribeExactly | internal/transport/http/handlers/store.go:98-112 | Subscribe's transaction by columns: pending row, open saga and queued event with one token to the requested address, or no change, for every race, refusal and fault |
| Conformance.ReadsExactly | internal/transport/http/handlers/store.go:68-74 | What the three handlers' reads find: exactly live rows by email and repository, or by key |
| Conformance.RequestsAreReads | internal/transport/http/handlers/subscription.go:137-198 | In every run every pending save holds a row that was live when read, under the email and repository asked for, so the event's address is the row's |
| Conformance.ScannerStepsExactly | internal/worker/scanner/store.go:84-117 | The scanner's events are queued last in the outbox, its move unsubscribes the repository, and nothing else changes |
| Conformance.RelayStepsExactly | internal/infra/rabbitmq/topology.go:51-89 | Each kind of event reaches its queue set exactly if the publish landed, and exactly the confirmed row is deleted |
| Conformance.QueueStepsExactly | internal/infra/rabbitmq/topology.go:116-132 | Messages in main are handed to a handler, those in a tier and those of a crashed worker come back to main, unchanged |
| Conformance.NackedIsHandledAgain | internal/infra/rabbitmq/consumer.go:167-175 | After a Retry or DeadLetter that could not be published and a nack that worked, the unchanged message is handed to a handler again |
| Conformance.NotifierStepsAreProcess | internal/worker/notifier/notifier.go:67-88 | Mark, publish and rollback together: settlement, keys and command for every combination of outcomes, as process has them |
| Conformance.PoisonIsDeadLettered | internal/worker/notifier/notifier.go:49-59 | A malformed or unknown event goes to the dead letters and touches nothing else |
| Conformance.SmtpStepExactly | internal/worker/mailer/mailer.go:86-106 | A send gives SMTP the built mail exactly if the call landed, and a poison command is dead-lettered |
| Conformance.ReportStepExactly | internal/worker/mailer/mailer.go:135-165 | The result published to the saga's queue is the outcome with the command's token |
| Conformance.OrchestratorStepsAreProcess | internal/worker/orchestrator/orchestrator.go:40-134 | Claim and write together: settlement and tables for every result, lookup and fault, as process has them |
| Conformance.ReapExactly | internal/worker/orchestrator/reaper.go:45-63 | The query finds exactly the stale open sagas, and a visited token is compensated unless the write rolls back |
| OnboardingInvariant.NextKeeps | internal/worker/orchestrator/orchestrator.go:67-134 | Every step of every service keeps the whole invariant: tables, rows, copies, relay, registry, saga causes and accounting |
| OnboardingInvariant.RunKeeps | internal/worker/orchestrator/orchestrator.go:67-134 | Every run keeps it |
| OnboardingInvariant.SettleCopies | internal/infra/rabbitmq/consumer.go:180-264 | Settling any delivery, with any failures, keeps every copy well formed, on declared tiers and of committed content |
| Duplicates.RunPays | internal/worker/notifier/notifier.go:67-88 | From any state: confirmed commands plus mark holders are paid for by earlier holders, the key and the expiries |
| Duplicates.DuplicateBound | internal/worker/notifier/notifier.go:67-88 | Over every run, confirmed commands of an event plus workers holding its mark, those that outlived their delivery included, are at most (1 if the key is present) plus the expiries, so at most 1 + expiries commands are confirmed |
| Conformance.DuplicateBoundIsReached | internal/worker/notifier/notifier.go:67-88 | The bound is tight: a concrete run with one expiry in which two commands for one event are confirmed |
| Outbox.Insert | internal/infra/outbox/outbox.go:46-59 | The rows of one transaction are appended after all others, in order, with the next ids, keeping the table ordered |
| Outbox.Relay.Append | internal/infra/outbox/outbox.go:46-59 | The same on the relay's table, keeping its order invariant |
| Outbox.Relay.Deliver | internal/infra/outbox/relay.go:54-79 | Whatever fails: the log only grows in insertion order and every deleted row was confirmed; with no new rows the loop goes on for at most as many full batches as there were rows plus the batches that delete nothing, and it does not end while full batches delete nothing; without failures each pending row is published once in order and the table ends empty; a failed query ends the call |
| Outbox.Relay.DeliverBatch | internal/infra/outbox/relay.go:65-73 | One batch: it is stopped exactly by a publish that is not confirmed; unstopped it shrinks the table if and only if a delete succeeds and otherwise leaves it as it was; without failures exactly its rows are published in order and deleted |
| Outbox.Relay.DeliverRow | internal/infra/outbox/relay.go:66-72 | One row, for each fate: what the log, the confirmed set and the table become |
| Outbox.FirstsAreAPrefix | internal/infra/outbox/relay.go:51-53 | The relay's order invariant means: with repeats dropped, the broker log is rows 0, 1, 2, ... of the insertion order |
| Outbox.WithoutMiddle | internal/infra/outbox/relay.go:70-72 | Deleting by id removes exactly that row and keeps the order of the others |
| Broker.Consumer.PublishConfirmed | internal/infra/rabbitmq/consumer.go:141-165 | The copy is in the queue if the publish landed and the queue exists; success is reported only for a confirmed publish |
| Broker.Consumer.RetryDelivery | internal/infra/rabbitmq/consumer.go:180-226 | The queues change as the settlement function says, with the attempt count incremented in int64, for every pattern of channel, publish, ack and nack failures |
| Broker.Consumer.DeadLetterDelivery | internal/infra/rabbitmq/consumer.go:230-264 | The same for dead-lettering |
| Broker.SettleConservesExactly | internal/infra/rabbitmq/consumer.go:177-264 | For every pattern of failures a Retry or DeadLetter keeps the number of copies of the message or adds one, if and only if it is not a confirmed and acked Retry of a message whose attempt count is negative or the largest int64; that one removes the copy; no other delivery is touched |
| Broker.RecallConserves | internal/infra/rabbitmq/consumer.go:101-112 | Taking a delivery back and delivering it again neither adds nor removes a copy |
| Broker.RecalledSettleKeepsCopies | internal/infra/rabbitmq/consumer.go:180-264 | A handler that outlived its delivery removes no copy by settling, and adds one exactly if its publish lands in a declared queue |
| Broker.CopyWritten | internal/infra/rabbitmq/consumer.go:180-211 | The copy names no declared queue exactly for those attempt counts, and otherwise carries the same body in the same queue set |
| Broker.OriginalAfterSettleExactly | internal/infra/rabbitmq/consumer.go:167-264 | Where the delivery is afterwards, as equivalences: gone if confirmed and acked, waiting for its ack if confirmed only, in main if not confirmed and nacked, stuck if neither |
| Broker.CopyAfterSettleExactly | internal/infra/rabbitmq/consumer.go:180-264 | Whether there is a copy and where: the tier of its attempt count with the count raised, or the dead letters with the reason, other headers unchanged |
| Broker.AttemptsAreRead | internal/infra/rabbitmq/consumer.go:122-135 | The count is read from an int32 or int64 header and is zero for any other or none |
| Broker.RetriesAreBounded | internal/infra/rabbitmq/consumer.go:180-215 | A message that keeps asking for Retry visits tiers a, a+1, ..., Tiers-1 and reaches the dead-letter queue at the call after that, with its body intact |
| SagaStore.SaveKeeps | internal/transport/http/handlers/store.go:84-89 | Saving any row that is not pending, however stale, keeps the tables sound |
| SagaStore.SaveRefusedExactly | internal/infra/db/db.go:63-73 | A save is refused if and only if the partial unique indexes could not hold afterwards |
| SagaStore.StartSagaKeeps | internal/transport/http/handlers/store.go:98-112 | Row, saga and event commit together: the table stays sound, the saga is open, the event is last in the outbox, no other row changed |
| SagaStore.CompletedKeeps | internal/worker/orchestrator/store.go:49-63 | Completing keeps the tables sound and changes no terminal saga |
| SagaStore.CompletedExactly | internal/worker/orchestrator/store.go:49-63 | Only the state of an open saga changes, to completed; no subscription, event or other saga does |
| SagaStore.CompensateKeeps | internal/worker/orchestrator/store.go:65-85 | Compensating keeps them sound, and no live pending row carries the token afterwards if its saga was open |
| SagaStore.CompensateCancelsExactly | internal/worker/orchestrator/store.go:65-85 | Exactly the live pending rows with the token of an open saga are deleted; a completion that raced ahead leaves everything alone |
| SagaStore.PendingAfterCompensateExactly | internal/worker/orchestrator/store.go:70-85 | After a Compensate a live pending row carries the token if and only if it did before and the saga was no longer open |
| SagaStore.UnsubscribeAllKeeps | internal/worker/scanner/store.go:110-117 | Unsubscribing a moved repository keeps the tables sound |
| SagaStore.UnsubscribeAllExactly | internal/worker/scanner/store.go:110-117 | Each live row of the repository becomes unsubscribed and keeps its other columns; every other row, the sagas and the outbox are unchanged |
| SagaStore.Store.SagaStateOf | internal/worker/orchestrator/store.go:41-47 | State, not found, or error |
| SagaStore.Store.Complete | internal/worker/orchestrator/store.go:52-63 | The new tables and the error, including already settled, for each fault |
| SagaStore.Store.Cancel | internal/worker/orchestrator/store.go:70-85 | The same for Compensate's transaction |
| SagaStore.Store.StaleAwaitingTokens | internal/worker/orchestrator/store.go:90-96 | Exactly the open sagas older than the limit, without repeats; an error and none if the query fails |
| Handlers.SubscriptionHandler.FreshToken | internal/transport/http/handlers/subscription.go:151-166 | The token is the first generated one that is not taken; none exactly when the generator or a lookup fails before that |
| Handlers.SubscriptionHandler.SaveSubscription | internal/transport/http/handlers/store.go:84-89 | The tables and the result for each fault, keeping the invariant |
| Handlers.SubscriptionHandler.Subscribe | internal/transport/http/handlers/subscription.go:137-198 | 409 exactly for an active row; 200 means one transaction left a pending row (the existing one if any), an open saga and a queued event with one fresh token and nothing else; 500 on a failing read; an error writes nothing unless the commit's answer was lost |
| Handlers.SubscriptionHandler.Confirm | internal/transport/http/handlers/subscription.go:214-240 | 404 exactly for an unknown token; 200 leaves the row read active by saving it over whatever other sessions did, or changes nothing if it was active; a failing read or token generator writes nothing |
| Handlers.SubscriptionHandler.Unsubscribe | internal/transport/http/handlers/subscription.go:263-282 | 404 exactly when no row has both tokens; 200 leaves that row unsubscribed; a failing read answers 500 and writes nothing |
| Notifier.Notifier.MarkProcessed | internal/infra/redis/dedup.go:28-37 | Set-if-absent: the new key set, and whether the key was new, for each outcome |
| Notifier.Notifier.Process | internal/worker/notifier/notifier.go:48-89 | Which settlement, key set and published commands result for every combination of outcomes; a rolled-back failure leaves the dedup store as it was |
| Mailer.VerificationMailInjective | internal/worker/mailer/mailer.go:201-204 | A verification mail determines its address and its token |
| Mailer.SendLoopIsTheSteps | internal/worker/mailer/mailer.go:211-235 | The send loop and the machine's send steps agree at every try, for every pattern of results and cancellations |
| Mailer.ReportLoopIsTheSteps | internal/worker/mailer/mailer.go:169-189 | The same for the report loop, including when it gives up and whether a failed try landed |
| Mailer.Mailer.SendWithRetry | internal/worker/mailer/mailer.go:211-235 | Stops at the first success, the bound or a cancellation; the mail is accepted on success; the total wait |
| Mailer.Mailer.ReportWithRetry | internal/worker/mailer/mailer.go:169-189 | The same for the result event |
| Mailer.Mailer.Process | internal/worker/mailer/mailer.go:86-133 | Only the true outcome is ever reported; a verification command is always acked, any other command is acked only after its mail was accepted and retried otherwise; for all results and for cancellations in either loop |
| Orchestrator.SettlingWriteKeeps | internal/worker/orchestrator/orchestrator.go:119-134 | A settling write keeps the tables sound and leaves its saga not open |
| Orchestrator.Orchestrator.Process | internal/worker/orchestrator/orchestrator.go:40-134 | The settlement and the new tables with other sessions between claim and write: an acked result leaves no open saga, only database errors are retried, only foreign events dead-lettered |
| Orchestrator.Reaper.Sweep | internal/worker/orchestrator/reaper.go:45-63 | Exactly the stale tokens are visited, one Compensate each between other sessions' commits; every token whose write committed is terminal afterwards whatever happened to the others, and a live pending row still carries it only if its saga is completed |
| Backoff.NewRetryPolicy | internal/infra/rabbitmq/retry.go:18-26 | Base kept, factor and tiers kept or raised to 1 and 0 |
| Backoff.TierTTLms | internal/infra/rabbitmq/retry.go:28-34 | The loop computes base*factor^tier in int64 arithmetic |
| Backoff.DeclareTiers | internal/infra/rabbitmq/topology.go:119-132 | Exactly the tiers 0 to Tiers-1 are declared, each with its TTL |
| Backoff.TotalWaitClosedForm | internal/infra/rabbitmq/retry.go:8-16 | The tiers wait base*(f^T-1)/(f-1) in all, base*T for factor 1 |
| Backoff.TiersNeverShrink | internal/infra/rabbitmq/retry.go:28-34 | A later tier's product is never smaller |
| Backoff.TTLsNeverShrink | internal/infra/rabbitmq/retry.go:28-34 | For every factor the int64 TTLs are ordered if the last product fits |
| Backoff.DoublingTTLsNeverShrinkExactly | internal/infra/rabbitmq/retry.go:28-34 | In int64 the TTLs of a doubling policy are ordered if and only if the last product fits |
| Backoff.DoublingClosedForm | internal/worker/mailer/mailer.go:211-235 | n tries wait base*(2^(n-1)-1) in all |
| Backoff.ScheduledWaitBoundForFactor | docs/adr/006_orchestrated_saga.md:130-150 | The scheduled waiting StaleAfter must exceed, over all parameters and every factor |
| Backoff.ScheduledWaitBound | docs/adr/006_orchestrated_saga.md:130-150 | Its closed form for a doubling policy, the default factor |
| Mailer.DefaultsExceedStaleAfter | internal/config/saga.go:16-20 | The defaults and the mailer's try bounds wait 1878 s, more than StaleAfter's 1800 s |
| RateLimit.RateLimitTransport.RoundTrip | internal/api/github/ratelimit.go:40-67 | With limit, remaining and reset all readable the stored triple is exactly those headers, the reset as Unix seconds; with one missing it stays; a transport error changes nothing |
| RateLimit.MergedFromHeaders | internal/api/github/ratelimit.go:53-131 | The same of the merge, and that a Retry-After of seconds or a date moves the stored time exactly if it is more than a second later |
| RateLimit.TripleFromLastValid | internal/api/github/ratelimit.go:53-58 | Over every response sequence limit, remaining and reset come whole from the last valid response, or from the initial limits |
| RateLimit.RetryAfterTracksTheMaximum | internal/api/github/ratelimit.go:60-63 | The stored Retry-After never moves back, was seen, and stays within one second below the largest seen |
| Quota.RateFitsTheWindow | internal/worker/scanner/quota.go:70-88 | Two requests per permit at this rate until the reset spend at most what is usable; positive exactly when something is |
| Quota.RateIsTheLargest | internal/worker/scanner/quota.go:70-88 | No larger rate within the cap fits the window |
| Quota.RateFollowsTheHeaders | internal/api/github/ratelimit.go:77-84 | From headers to rate: after a response with whole limits the rate is positive if and only if the remaining header exceeds the limit header times the buffer |
| Quota.RateAfterReset | internal/worker/scanner/quota.go:70-73 | Past the reset the usable requests are spread over an hour |
| Quota.UnauthenticatedRate | internal/api/github/ratelimit.go:141-144 | Without limits the rate is that of 60 requests an hour less the buffer, two to a permit |
| Quota.QuotaManager.Refresh | internal/worker/scanner/quota.go:51-92 | Zero before Retry-After, otherwise the rate above from the observed or the unauthenticated limits; the limiter is set to it |
| Quota.FreezeStopsTheScanner | internal/worker/scanner/quota.go:94-97 | After a freeze, until the next Refresh, the scanner sends no more requests than it was already permitted plus those of the one permit left in the bucket, over every run |
| Quota.EveryRequestIsCounted | internal/worker/scanner/quota.go:66-91 | Over every run the server's count falls by exactly the requests the scanner and the handler sent |
| Quota.ReserveIsKept | internal/worker/scanner/quota.go:66-91 | Up to the reset, over every run of refreshes, permits, requests and answers, from any count read within the lag at the opening, and with at most two requests per permit, the server's count stays above the reserve less 2 per worker, 2, the header lag, the handler's lookups and any opening deficit |
| Quota.WithinFourExactly | internal/worker/scanner/quota.go:86-87 | With one worker, exact headers and no lookups the count never falls more than 4 below Limit*safetyBuffer in any run if and only if a permit leads to at most two requests |
| Quota.MorePerPermitSpendsTheReserve | internal/worker/scanner/worker.go:56-61 | With k > 2 requests per permit a concrete run spends (k-2)*n of the reserve, for every n |
| Scanner.RepositoryStore.ClaimIdle | internal/worker/scanner/store.go:37-70 | The claimed ids are distinct and at most a batch; they are live idle rows never scanned or scanned at or before the cutoff, and all of those if fewer than a batch; exactly they change; what is returned for each fault |
| Scanner.ClaimExactly | internal/worker/scanner/store.go:58-63 | A claim sets status and scan time of the chosen rows and no other column |
| Scanner.RecoverExactly | internal/worker/scanner/store.go:31-35 | A recovery makes every live row idle and changes nothing else, deleted rows included |
| Scanner.FinishExactly | internal/worker/scanner/store.go:72-90 | A finished scan sets status, scan time and the four scanned columns of its live row and nothing else |
| Scanner.RemoveExactly | internal/worker/scanner/store.go:116-116 | A removal marks its row deleted and nothing else |
| Scanner.Producer.Produce | internal/worker/scanner/producer.go:36-68 | The batch fits the rate and the free slots so no send blocks, whatever workers take meanwhile; what is queued is the claimed batch in order, as far as a cancellation or an error allows |
| Scanner.Producer.Start | internal/worker/scanner/scanner.go:55-66 | After the start's recovery and first claim exactly the rows just claimed are processing if the recovery committed, and the rows left processing are untouched if it did not |
| Scanner.ClaimsAreExclusiveAndSpaced | internal/worker/scanner/scanner.go:55-87 | Over every run with crashes and restarts: no repository twice across queue and workers, every live one there processing, the queue within capacity, two claims of one repository at least minInterval apart |
| Scanner.TakenExactly | internal/worker/scanner/store.go:49-49 | With the scanner up and room in the queue, an idle live row is taken if and only if it was never scanned or minInterval has passed since its stamp |
| Scanner.StepsExactly | internal/worker/scanner/worker.go:44-64 | Workers take repositories first in, first out; a new repository starts idle and unscanned; a crash empties queue and workers |
| Scanner.NewRepositoriesAreTaken | internal/worker/scanner/store.go:37-70 | Over every run a registered repository that was never claimed is queued and processing after a Produce of it whenever the scanner is up and its queue has room |
| Scanner.StrandedExactly | internal/worker/scanner/store.go:31-35 | Exactly which steps leave a live row processing with no place in queue or worker (an unqueued claim, a failed commit, a crash), and that a committed recovery is the only step that frees one |
| Scanner.StrandedUntilRecovery | internal/worker/scanner/processor.go:37-41 | Over every run in which no recovery commits, such a row stays processing, unqueued and unheld, so it is never claimable |
| Scanner.OnlyFaultsStrand | internal/worker/scanner/producer.go:61-67 | Over every run without those three faults no row is ever left so |
| Scanner.RecoveryEndsStranding | internal/worker/scanner/scanner.go:55-87 | After any run, a crash and a committed recovery leave no row so, and none becomes so until the next of those faults |
| Scanner.ClaimableAgainExactly | internal/worker/scanner/store.go:72-90 | After the scan of a live row it can be claimed again exactly if the commit took place, and then from minInterval after the end of the scan on |
| Processor.RepoProcessor.HandleNewRelease | internal/worker/scanner/processor.go:105-126 | One event per subscriber read, in order, with the tag; none if the read fails |
| Processor.NotificationsExactly | internal/worker/scanner/processor.go:112-125 | Event by event: the subscriber's address, the repository and the tag, in order |
| Processor.ScanDecides | internal/worker/scanner/processor.go:43-99 | What a scan decides for every pair of answers: moved exactly for another id with the subscribers read, with their notices; frozen exactly for a 403 or 429 of an endpoint asked; tag, release id and ETags changed only by a 200 |
| Processor.RepoProcessor.ProcessRepo | internal/worker/scanner/processor.go:35-100 | Repository table, subscriptions, outbox and limiter after every combination of responses and faults are those of the decision function; once a moved repository's update has committed no live row of it is active or pending and no row of another repository has changed; a move without notices is two statements that may come apart |
| Processor.RoundIsProcessRepo | internal/worker/scanner/processor.go:35-100 | The round of the refinement below is what ProcessRepo does to table and outbox |
| Processor.ConditionalRefinesFull | internal/worker/scanner/processor.go:73-89 | With stored ETags the scanner commits the same rows and events as one that always fetches the body, over every origin history in which equal ETags mean equal content, failures and failed commits included |
| Processor.NewRowsRefine | internal/api/github/github.go:57-73 | The same for a row that was never scanned, without further conditions |
| Processor.CommittedRowMatchesOrigin | internal/worker/scanner/processor.go:75-83 | A committed round that reaches both endpoints leaves the origin's tag, release id and both ETags |
| Processor.FailedRequestKeepsTheTag | internal/worker/scanner/processor.go:61-70 | When a request fails, neither tag nor release ETag moves and nothing is sent |
| Processor.ReleasesAreWhatIsOwed | internal/worker/scanner/processor.go:105-126 | Over any run the release notifications inserted are exactly, in order, one for each subscriber read for each committed tag change, with that tag; failed reads, failed commits, unchanged scans and moves insert none |
| Processor.NotificationsFollowTheTag | internal/worker/scanner/processor.go:105-126 | Over any run every address is sent each committed tag change, in order, as often as the read for that change returned it, whenever it joins or leaves |
| Processor.NotificationsAddUp | internal/worker/scanner/processor.go:105-126 | Their number is the sum, over the committed tag changes, of the subscribers read |
| Processor.FailedCommitsAreRetried | internal/worker/scanner/store.go:72-90 | After any number of rounds whose commit failed, the next one that commits and finds a new tag stores it and announces it to everybody it reads |
| Processor.FailedReadLosesTheRelease | internal/worker/scanner/processor.go:106-110 | When the subscriber read fails the tag is committed with no events, and no later run of rounds with the same origin inserts anything, whatever fails in it |
| Cache.CacheTransport.RoundTrip | internal/api/github/cache.go:52-120 | A readable live entry is served and kept; otherwise the network's answer is served, and kept for the TTL of its status class (below 400 or not) if that is positive and Set works; other URLs are untouched |
| Cache.MatchSurvivesExactly | internal/api/github/cache.go:52-120 | A cached 304 still matches the stored ETag after a request if and only if the double cache fault did not happen in it |
| Cache.CachedAnswersMatchExactly | internal/api/github/cache.go:52-120 | Over every run from a new repository without the double fault cached 304s of both endpoints answer the ETags the row holds, if and only if neither is a live 304 at the start |
| Cache.SlotStays | internal/api/github/cache.go:52-120 | For either endpoint, through every fault of the cache: the stored ETag keeps belonging to the stored value, entries stay true, and while a 304 is cached the origin has had the stored value since it was given |
| Cache.CommittedTagIsRecent | internal/worker/scanner/processor.go:43-89 | One scan through the cache: if the identity check passed, the origin had the stored id at most one TTL before; a committed 200 or 304 leaves a tag it had at most one TTL before |
| Cache.RunKeeps | internal/api/github/cache.go:52-120 | Every run of scans of a repository, both endpoints, every fault, keeps that |
| Cache.EveryCommittedTagIsRecent | internal/api/github/cache.go:52-120 | The freshness bound for every scan of every run from a new repository, double cache faults included, with any true answers already in the cache but no live 304 |
| Cache.RecentFromTheStartExactly | internal/transport/http/handlers/subscription.go:52-71 | For a repository that has no empty tag and whose id is the origin's when its row is new, every scan of every run is recent if and only if no live 304 for the release is cached then |
| Cache.LeftoverIsTaken | internal/worker/scanner/store.go:110-117 | Otherwise the first scan, with every cache operation for the release working, commits the empty tag, which the origin never had |
| Cache.MovedRepositoryLeavesA304 | internal/worker/scanner/processor.go:46-49 | A concrete run without any fault: the id behind the name changes, the old row is removed by its scan, and the first scan of the new row takes the old row's live 304 and commits the empty tag |
| Cache.CachedReleasesAreWhatIsOwed | internal/worker/scanner/processor.go:105-126 | Conservation of release notifications over every run through the cache |
| Cache.OneCacheFaultIsBenign | internal/api/github/cache.go:107-117 | One cache operation failing per request is harmless to the match |
| Cache.StaleAfterTwoFaults | internal/api/github/cache.go:52-120 | The double fault is possible and does break the match, though not the freshness bound's invariant |

## Left out

- The AMQP, Redis, PostgreSQL, GORM and SMTP clients as protocols: each call is a step with a chosen outcome.
- JSON: bodies are decoded values, with a separate malformed case that is dead-lettered.
- The gRPC transport of the mailer, and a mailer without a result publisher.
- HTTP routing, request validation (400 and 401), metrics, logging and configuration parsing.
- Randomness of tokens: any token may be proposed, and the unique indexes decide.
- Content type and correlation id of republished messages.
- Manual replay from a dead-letter queue.
- The listing of subscriptions, which only reads.
- The rename that resolveOrCreateRepo saves onto a repository row; the scanner is taken to be the only writer of those rows.
- Several scanner instances at once: recovery resets every processing row.
- Several outbox relays at once: one relay at a time publishes and deletes rows.
- Fairness of the claim order, which depends on where the database places NULL scan times.
- A 200 response with an undecodable body: the processor looks at the status only and would see an empty value.
- The sleeping reservations inside rate.Limiter, its behaviour at limit 0, and rounding of floating point.
- Outbox events that fail to be built and are skipped.
- Tier counts of 2^63 - 1 and more, which no broker could declare (`TierCount`).
- HTTP caching rules other than If-None-Match and 304 (sections 8.8.3, 13.1.2 and 15.4.5 of RFC 9110), and other methods than GET in the cache.
- Outbox.Relay.Deliver: `rounds` bounds the batches of one call, because the source's outer loop does not end while a full batch deletes nothing.
- Quota.ReserveIsKept: covers one rate-limit window up to its reset and at most two requests per permit, so no redirects; WithinFourExactly shows that limit to be necessary; the subscribe handler's own requests, which share the quota, are counted as lookups.
- Time between the two requests of one scan: both are taken at one instant.
- Processor.RepoProcessor.MarkMoved: states nothing about a subscription confirmed between the subscriber read and the transaction.
- Cache.CachedAnswersMatchExactly: speaks of runs in which no request meets the double cache fault, which MatchSurvivesExactly shows to be necessary for the match.
- Backoff.ScheduledWaitBound: counts waiting only, not the time of the calls in between.

# Verification of the consume protocol

This project models the at-least-once consume path of foi-messaging-go and proves what it promises. It has three layers.

1. **The protocol** (`RedisStream.dfy`, `Subscriber.dfy`, `SubscriberInvariant.dfy`, `ConsumeSystem.dfy`, and the
   `Consume*.dfy` theorem files). Redis streams with one consumer group each, any number of consumer processes, and in
   every process any number of subscriptions, each with its read loop, claim loop, waiter goroutines and dispatch calls.
   Every atomic step of every goroutine is an action, and so is what the environment does: publishing, clock ticks,
   crashes, cancelled contexts, `Close`, a destroyed group, a deleted stream, lost replies to any command, failed XACKs,
   and DLQ writes that are refused, or written with their reply lost. A run is any interleaving of these. The invariant
   is proved one subscription at a time: each subscription's own steps keep it, and every step of anything else on the
   stream stays within `RedisStream.Extends`, under which it is stable.
2. **One delivery** (`Errors.dfy`, `Strconv.dfy`, `Validation.dfy`, `Backoff.dfy`, `Dispatch.dfy`, `Consumer.dfy`).
   `Dispatcher.Dispatch`, with its retry loop and dead-lettering, is a method proved equal to an outcome function that
   is defined over the payload, the metadata, the registration log, an arbitrary handler and everything the environment
   may do; the theorems are about that function.
3. **The imperative pieces** (`Config.dfy`, `Telemetry.dfy`, `Registry.dfy`, `Lifecycle.dfy`, `Publisher.dfy`,
   `Harness.dfy`): classes with the fields the code updates, each method proved against functions on those values, and
   lemmas about the functions. Registration, `Run` and `Close` are also a transition system over all interleavings of
   callers.

`Bridge.dfy` joins the layers: every outcome of layer 2 is a legal sequence of the dispatch steps that layer 1 allows,
what it leaves in the metrics is what the accounting of `Telemetry.dfy` expects, and its duration is bounded. The same
holds of the hook for entries that cannot be decoded.

`dafny verify dfyconfig.toml` checks the whole project.

Where the code and its documentation differ, the model follows the code:

- `config.go` presents the construction check as the guarantee that backoff alone stays below `ClaimMinIdle`. The check
  is on a wrapping int64 sum, so among accepted configurations the worst-case sum is below `ClaimMinIdle` exactly when
  the exact sum fits in an int64 (`Backoff.AcceptedBudgetIff`). What a delivery can really sleep is below `ClaimMinIdle`
  for every jitter choice exactly when the longest sleeps add up to less (`Backoff.SleepBelowMinIdleIff`).
  `Backoff.OverlongBackoffAccepted` is a configuration that gets through and can sleep at least as long as any `ClaimMinIdle`;
  `Backoff.OverflowCanShortenSleep` is one whose sum overflows although its sleeps stay below.
- `config.go` says the cap bounds redeliveries; a negative `MaxDeliveryAttempts` passes validation and dead-letters
  everything. Results about the cap take `MaxDeliveryAttempts >= 1` as a hypothesis.
- `dlq.go` says exactly one of `Event` and `EventRaw` is set. The model keeps "set" apart from "non-empty" and proves it
  in that sense; on the wire an empty payload leaves both fields out.
- The comment on `Claim` calls the true attempt number "RetryCount plus one". While the group is kept, that holds of a
  claim exactly when nobody was granted the entry between the sweep's scan and the claim (`ConsumeStamps.StampExactIff`).
  With one live instance it always holds (`ConsumeAttempts.StampsAreCounters`); with two, `ConsumeStaleRun.StampCanBeStale`
  is a run in which it does not. A stamp is never ahead (`ConsumeAttempts.StampsNeverAhead`), and stale ones stretch the
  cap by less than the number of subscriptions (`ConsumeStale.WithinCapAnywhere`), a bound that is reached for every
  number of instances and every `MaxDeliveryAttempts` from 2 on (`ConsumeStaleRun.BoundIsReachedAnywhere`). At 1 the cap
  holds on any number of instances, because a claim is stamped at least 2.
- `config.go` says that attempt `MaxDeliveryAttempts`+1 is dead-lettered. When DLQ writes are slower than `ClaimMinIdle`,
  up to `Concurrency` over-cap deliveries of one entry can be under way at once in one subscription before the first is
  acknowledged (`ConsumePoison.PoisonBounded`, `ConsumeOverlap.BoundIsReached`); `ConsumeTotals.dfy` adds this up over
  all subscriptions, through crashes and restarts, and `ConsumeTotalsRun.TotalIsReached` reaches that total.
- `Publish` accepts a version whose major does not fit in an int, which no consumer can route
  (`PublisherModel.OversizedMajorPublishes`, `PublisherModel.AcceptedIsRoutedIff`).

## Model

| member | source | states |
|---|---|---|
| ConsumeSystem.NextKeeps | internal/watermill/subscriber.go:196-500 | every action of every goroutine, process and of the environment keeps the system invariant: stream, subscription and WaitGroup parts |
| ConsumeSystem.Reachable | internal/watermill/subscriber.go:144-194 | the invariant holds in every state of every run |
| ConsumeSafety.NoEventLost | internal/watermill/subscriber.go:196-439 | in every run, an entry on a stream whose group exists is undelivered, pending, handled or in the DLQ |
| ConsumeSafety.RecreationRestores | internal/watermill/subscriber.go:306-339 | a loop that recreates a missing group makes every entry still on the stream deliverable again; a group that is there keeps its position and pending list |
| ConsumeSafety.GroupCreatedOncePerLoss | internal/redis/stream.go:61-74 | however loops and instances race, a group is created once at first and once per loss |
| ConsumeSafety.GroupSurvives | internal/watermill/subscriber.go:317-327 | between losses the group is never reset: its position does not move back and no entry returns to its pending list |
| ConsumeSafety.AcksOnlySettled | internal/watermill/subscriber.go:428-439 | every XACK, also a late one for a delivery of a lost group, is for a settled entry, which stays settled |
| ConsumeSafety.SlotAccounting | internal/watermill/subscriber.go:454-469 | the semaphore holds one token per holding loop and per unreleased waiter, at most Concurrency |
| ConsumeSafety.ReleaseNeverBlocks | internal/watermill/subscriber.go:467-469 | every path releases exactly what it acquired, release never blocks, WaitGroup.Done never goes negative, other subscriptions are untouched |
| ConsumeSafety.HandlersBounded | internal/watermill/subscriber.go:102-115 | until Close begins, at most Concurrency handlers of a subscription run at once |
| ConsumeSafety.ContextOutlivesHandler | internal/watermill/subscriber.go:371-405 | a message's context is cancelled only after its ack or nack or after Close began, never by ctx alone |
| ConsumeSafety.LandedAckIsAttempted | internal/watermill/subscriber.go:407-423 | an ack that landed before the waiter left gets its XACK attempt, whichever select branch ran |
| ConsumeSafety.NoSendAfterClose | internal/watermill/subscriber.go:169-191 | nothing is sent on the output channel after it is closed |
| ConsumeSafety.CloseWaitsForAll | internal/watermill/subscriber.go:494-500 | when Close's wait can return, loops have ended, channels are closed, every waiter has released its slot |
| ConsumeSafety.CloseReturns | internal/watermill/subscriber.go:494-500 | the converse: when every subscription has ended and every waiter has left, Close's wait can return |
| ConsumeStream.EntriesStay | internal/redis/stream.go:76-173 | no read, claim, acknowledgement or repair takes an entry off its stream: it stays until the stream is deleted |
| ConsumeStream.SettledByVerdict | internal/watermill/subscriber.go:347-439 | what counts as settled was settled by a dispatch that returned nil within the cap, or by a dead letter that was written |
| ConsumeStream.PendingUntilAcked | internal/redis/stream.go:164-173 | while the group is kept, an entry leaves the pending list only by an XACK for that very entry, which is then settled |
| ConsumeStream.NothingSkipped | internal/redis/stream.go:76-98 | while the group is kept, its position passes over no entry: every entry up to it was delivered |
| ConsumeStream.ScanListsIdle | internal/watermill/subscriber.go:255-272 | a successful scan lists exactly the claimable entries, or the first hundred of them in order |
| ConsumeStream.EmptyReadIff | internal/redis/stream.go:76-98 | a read finds nothing exactly when the group has passed every entry, and otherwise there is a next entry for it |
| ConsumeStream.ClaimGetsIff | internal/redis/stream.go:132-162 | a claim gets its entry exactly when it is pending and idle for ClaimMinIdle, and otherwise nothing |
| ConsumeLoops.RoundsEnd | internal/watermill/subscriber.go:196-304 | whatever the server answers, every step a loop takes brings it nearer to its top: a round of the read loop ends within five steps, a sweep within 805, and no other goroutine of the subscription moves it |
| ConsumeLoops.RunsUntilStopped | internal/watermill/subscriber.go:196-304 | in every run, until Close begins or ctx is cancelled: no loop has left, no decodable message was dropped or nacked undispatched, no waiter left before the verdict |
| ConsumeRounds.EmptyReadGoesOn | internal/watermill/subscriber.go:205-224 | a read without entries gives the slot back and the loop reads again; nothing else changes |
| ConsumeRounds.FailedReadGoesOn | internal/watermill/subscriber.go:205-224 | a failed read gives the slot back, pauses, and the loop reads again |
| ConsumeRounds.RepairGoesOn | internal/watermill/subscriber.go:212-224 | whether or not the group could be restored, the read loop reads again |
| ConsumeRounds.LostReadGoesOn | internal/watermill/subscriber.go:205-224 | an entry whose read reply was lost is pending at count 1, its slot is given back, and the loop reads again |
| ConsumeRounds.FruitlessClaimGoesOn | internal/watermill/subscriber.go:277-295 | a claim that gets nothing, or fails, gives its slot back, and the sweep goes on with exactly the remaining lines |
| ConsumeRounds.LostClaimGoesOn | internal/watermill/subscriber.go:277-295 | a claim whose reply was lost has moved the server's counter and idle time all the same, gives its slot back, and the sweep goes on without its line |
| ConsumeRounds.SweepsGoOn | internal/watermill/subscriber.go:241-270 | a failed scan and a finished sweep lead to the next tick and the next scan |
| ConsumeRounds.RoundsStop | internal/watermill/subscriber.go:441-469 | when the subscriber is stopping, an idle loop can leave at once and a fruitless round ends the loop, with the slot given back |
| ConsumeRounds.AckIsHonoured | internal/watermill/subscriber.go:407-439 | the waiter of an acked message tries the XACK and then gives back slot and WaitGroup count, also when it woke up for Close |
| ConsumeRounds.LetterDecides | consumer.go:454-475 | a dispatch offers at most one letter and then returns, nil exactly when it was accepted; over the cap it calls no handler and returns nil in no other way |
| ConsumeRounds.SuccessIsAcked | internal/watermill/subscriber.go:398-439 | a message within the cap whose handler returns nil ends handled and, when the XACK arrives, off the pending list, with slot and waiter gone |
| ConsumeRounds.LetterIsAcked | internal/watermill/subscriber.go:398-439 | a message whose dead letter is accepted ends in the DLQ and, when the XACK arrives, off the pending list, without counting as handled |
| ConsumeDrain.StoppingCanFinish | internal/watermill/subscriber.go:494-500 | in every reachable state of a stopping process a subscription has a schedule of its own goroutines on which both loops end, the channel is closed and every slot is given back: Close cannot deadlock |
| ConsumeDrain.StoppedByItsActs | internal/watermill/subscriber.go:471-500 | a process is stopping exactly from its first Close or cancelled ctx on, for good |
| ConsumeDrain.CrashFreezes | internal/watermill/subscriber.go:235-240 | after a crash the subscriptions of a process change no more and take no step |
| ConsumeProgress.NeverStuck | internal/watermill/subscriber.go:196-304 | in every reachable state an unfinished subscription of a live process has an enabled step: the semaphore cannot deadlock the loops |
| ConsumeProgress.MissingGroupIsRepaired | internal/watermill/subscriber.go:205-225 | a read that finds no group leads to its re-creation at the start of the stream, with the slot given back |
| ConsumeProgress.MissingGroupIsRepairedByScan | internal/watermill/subscriber.go:255-270 | a sweep that finds no group restores it at the start of the stream and waits for the next tick |
| ConsumeProgress.MissingGroupIsRepairedByClaim | internal/watermill/subscriber.go:277-289 | a claim that finds no group gives its slot back, restores the group and drops the rest of the sweep |
| ConsumeProgress.FailureIsNacked | internal/watermill/subscriber.go:398-423 | a message whose handler failed can be nacked: its entry stays pending and its slot and waiter are given back |
| ConsumeProgress.UndeliveredIsRead | internal/watermill/subscriber.go:200-231 | with a free slot the first undelivered entry can be read and handed over as attempt 1: stream, message, slot and WaitGroup afterwards are exactly those |
| ConsumeProgress.PendingIsReclaimed | internal/watermill/subscriber.go:255-301 | with a free slot the first line of a sweep can be claimed and handed over, stamped with the server's next count; the rest of the sweep remains |
| ConsumeTiming.TimedExclusivity | internal/watermill/subscriber.go:255-301 | while the stream's group is kept and its deliveries in flight are younger than ClaimMinIdle, no entry is in two deliveries at once on any instances, whatever snapshots they hold |
| ConsumeTiming.NoGrantWhileBusy | internal/redis/stream.go:132-162 | the server grants no delivery of an entry that is in flight, by read or by claim |
| ConsumeAttempts.StampsNeverAhead | internal/watermill/subscriber.go:297-301 | on any number of instances a stamped attempt is at least 1 and, while the group is kept, at most the server's counter; counters of an entry strictly grow |
| ConsumeAttempts.StampsAreCounters | internal/watermill/subscriber.go:297-301 | while the group is kept, with one live instance at a time, also across restarts, the stamped attempt is the server's counter and strictly grows per entry |
| ConsumeAttempts.WorkBound | consumer.go:454-475 | while the group is kept, with one live instance at a time, one entry's handler is called at most MaxDeliveryAttempts x (1 + MaxImmediateRetries) times, through crashes, lost replies and failed acks |
| ConsumeAttempts.DeliveriesWithinCap | consumer.go:454-475 | while the group is kept, with one live instance at a time, at most MaxDeliveryAttempts deliveries of an entry pass the cap, however slow they are, and an over-cap one calls no handler |
| ConsumeStamps.StampExactIff | internal/watermill/subscriber.go:255-301 | on any number of instances, while the group is kept, a claimed delivery is stamped with the server's counter exactly when its entry was granted to nobody between the sweep's scan and the claim |
| ConsumeStamps.SubscriptionAttemptsGrow | internal/watermill/subscriber.go:297-301 | on any number of instances, while the group is kept, the attempts a subscription receives of an entry strictly grow |
| ConsumeStamps.SweepHasScan | internal/watermill/subscriber.go:255-272 | the lines a subscription holds are what is left of its latest scan's reply |
| ConsumeStaleRun.StampCanBeStale | internal/redis/stream.go:132-137 | for every MaxDeliveryAttempts from 2 on, a run of two instances in which a claimed delivery is stamped below the server's counter |
| ConsumeStale.WithinCapAnywhere | consumer.go:454-475 | on any number of instances, while the group is kept, at most MaxDeliveryAttempts deliveries of an entry, and one more per further subscription, are stamped within the cap; at MaxDeliveryAttempts 1 at most one is |
| ConsumeStale.WorkBoundAnywhere | consumer.go:454-475 | on any number of instances, while the group is kept, an entry's handler is called at most (MaxDeliveryAttempts + further subscriptions) x (1 + MaxImmediateRetries) times |
| ConsumeStaleRun.BoundIsReachedAnywhere | internal/watermill/subscriber.go:255-301 | for every MaxDeliveryAttempts from 2 on and every number of instances, a run without failures reaches that bound on deliveries |
| ConsumePoison.PoisonBounded | consumer.go:454-475 | on any number of instances, while the group is kept, a subscription whose own dead letters and XACKs succeed and whose process is not closing dispatches an entry at most MaxDeliveryAttempts + Concurrency times, however slow anything is and whatever crashes, closes or fails elsewhere; at Concurrency 1 that is MaxDeliveryAttempts + 1 |
| ConsumePoison.OverCapsWithinSlots | internal/watermill/subscriber.go:102-115 | under the same hypotheses, the subscription has at most Concurrency over-cap deliveries of an entry that are or may be dispatched |
| ConsumePoison.PoisonTerminates | consumer.go:454-475 | when the stream's deliveries are also timely, the subscription's bound is MaxDeliveryAttempts + 1 at any Concurrency |
| ConsumePoison.PoisonLeavesPending | internal/watermill/subscriber.go:347-369 | under the hypotheses of PoisonBounded, an over-cap dispatch of the subscription that is over has taken its entry off the pending list, and so has its first emission of an undecodable entry |
| ConsumeTotals.TotalAnywhere | consumer.go:454-475 | when they hold of every subscription the stream ever had, on any number of instances and through crashes, all dispatches of an entry together are at most MaxDeliveryAttempts, one per further subscription (none at MaxDeliveryAttempts 1), and Concurrency per subscription |
| ConsumeTotals.TotalAcrossRestarts | consumer.go:454-475 | with one live instance at a time, across crashes and restarts, at most MaxDeliveryAttempts plus Concurrency per subscription |
| ConsumeTotals.TotalWhenTimely | consumer.go:454-475 | when the stream's deliveries are also timely, both totals hold with one over-cap dispatch per subscription in place of Concurrency |
| ConsumeTotalsRun.TotalIsReached | consumer.go:454-475 | for every MaxDeliveryAttempts, every Concurrency and every number of instances a run without failures reaches the bound of TotalAnywhere |
| ConsumeOverlap.BoundIsReached | config.go:69-74 | for every MaxDeliveryAttempts and Concurrency a run of one instance that meets the hypotheses of PoisonBounded and of TotalAcrossRestarts reaches MaxDeliveryAttempts + Concurrency dispatches: those within the cap are nacked, the over-cap ones wait for their DLQ write and call no handler |
| ConsumeOverlap.WorkIsReached | consumer.go:454-475 | the same run makes as many handler calls as WorkBound allows without immediate retries, and ends with as many dispatches under way as HandlersBounded allows |
| ConsumeOverlap.CalmRunExists | config.go:53-67 | the hypotheses on timely deliveries can be met with a delivery in flight, at every MaxDeliveryAttempts and Concurrency |
| ConsumeOverlap.SystemPlays | internal/watermill/subscriber.go:196-304 | steps a subscription can play out on its own extend a run of the whole system |
| ConsumeOrder.OrderedAtConcurrencyOne | internal/watermill/subscriber.go:196-233 | at Concurrency 1 until Close, every earlier delivery of a subscription is over when a later one is received, and first deliveries come in stream order |
| RedisStream.GrantKeeps | internal/redis/stream.go:76-162 | a delivery, by read or by claim, keeps the stream's invariant and extends the stream as the other subscriptions rely on |
| RedisStream.AckKeeps | internal/redis/stream.go:164-173 | acknowledging a settled entry, pending or not, strands nothing |
| SubscriberInvariant.StepAdvances | internal/watermill/subscriber.go:196-469 | every step of a subscription keeps its invariant, only extends the stream, and moves the WaitGroup with its goroutines |
| SubscriberInvariant.Stable | internal/watermill/subscriber.go:102-115 | what a subscription keeps survives every step of other subscriptions and of the environment |
| Bridge.DispatchIsProtocol | consumer.go:373-557 | whatever dispatch does with a stamped message is an enabled sequence of the protocol's dispatch steps, acked exactly when it returns nil |
| Bridge.ReturnsAreOutcomes | consumer.go:373-557 | the other direction: every return the protocol allows a dispatch call is made by an outcome with the same calls, letter and verdict |
| Bridge.HookIsProtocol | consumer.go:281-328 | whatever the hook comes to for an entry that cannot be decoded is an enabled sequence of its loop's steps that drops the message, returns the slot and leaves the loop going unless it is stopping; an XACK is sent exactly when the hook returned nil, and then the letter is in the DLQ |
| Bridge.HookIsAccounted | consumer.go:281-328 | what the hook leaves in the instruments is what the accounting adds for such an entry, and the accounts stay balanced |
| Bridge.OccupancyBound | config.go:53-67 | handler calls, backoffs and the DLQ write of one delivery take at most (1 + MaxImmediateRetries) x handler bound + worst-case backoff + DLQ bound |
| Bridge.DispatchConserves | telemetry.go:314-405 | the events of a dispatch keep received, outcomes, durations and dead letters in balance |
| Bridge.DispatchIsAccounted | telemetry.go:222-314 | what one dispatch leaves in the instruments is what its events add up to: one received, one terminal counter, one duration, its retries, at most one letter |
| DispatchSpec.AckJustified | consumer.go:354-557 | dispatch returns nil exactly when the delivery was processed, skipped, or its letter was accepted; over the cap no handler is called; calls are bounded |
| DispatchSpec.FirstDecisiveVerdict | consumer.go:731-801 | the retry loop comes to the first decisive verdict among 1 + MaxImmediateRetries calls, and retries recorded are calls - 1 unless the last backoff was abandoned |
| DispatchSpec.RetriesAreConfigured | consumer.go:750-800 | with MaxImmediateRetries >= 0: at most 1 + MaxImmediateRetries calls, the last one being the first whose verdict is not retryable, or number MaxImmediateRetries, or the one whose backoff was abandoned, which counts one retry more |
| DispatchSpec.AllRetriesUsed | consumer.go:774-800 | a handler that keeps failing retryably is called exactly 1 + MaxImmediateRetries times with MaxImmediateRetries retries, and its last error nacks |
| DispatchSpec.DispatchRefuses | consumer.go:454-532 | an attempt over the cap, and a payload that does not decode, validate and route, are failed under their category with a letter and without a handler call |
| DispatchSpec.DispatchSkips | consumer.go:534-547 | a usable event no accepted registration is for is skipped for that reason, without letter or call |
| DispatchSpec.DispatchHandles | consumer.go:534-557 | a usable event goes to the handler registered for it, and its last verdict decides how the delivery is stated, acked and dead-lettered |
| DispatchSpec.StampedAttemptSurvives | consumer.go:700-713 | the attempt the subscriber formats is the one dispatch parses; a missing key, and a text that is no int64 of at least 1, reads as the first delivery |
| DispatchSpec.LetterKeepsPayload | dlq.go:47-59 | a dead letter holds the payload in exactly one field: as the event only if it is valid JSON, as raw bytes always when the envelope was unusable; its reason is MaxAttemptsExceeded exactly for an over-cap delivery, PermanentError exactly for a handler's verdict; cause and category go with it, group and consumer are the configured ones |
| DispatchSpec.CollapsedBackoffAgrees | consumer.go:785-800 | collapsing the backoff under a live context changes no outcome, call count or retry count |
| ConsumerModel.SleepWithJitter | consumer.go:803-823 | true exactly when the context allowed the wait to complete; sleeps less than its bound |
| ConsumerModel.Dispatcher.DeadLetterTo | consumer.go:644-698 | nil exactly when the letter was accepted; one counter per attempted write; the error says which step failed; the sink grows by that letter only |
| ConsumerModel.Dispatcher.CallUntilDecided | consumer.go:750-800 | calls the handler up to the decisive call of the specification and at most 1 + MaxImmediateRetries times, counts each retry before its backoff, sleeps within the bounds and not at all when the backoff is collapsed |
| ConsumerModel.Dispatcher.RunWithRetry | consumer.go:731-801 | error, calls, stated outcome, instruments and sink are those of the specified retry outcome |
| ConsumerModel.Dispatcher.Decide | consumer.go:454-557 | cap, decoding, validation, major version, lookup, handler in that order, with the specified outcome |
| ConsumerModel.Dispatcher.Dispatch | consumer.go:373-557 | one message from start to end has exactly the specified outcome and is recorded once; a probe's sink replaces the consumer's, which stays untouched |
| ConsumerModel.Dispatcher.HandleUndecodable | consumer.go:281-328 | nil exactly when the stream is known and the raw fields were dead-lettered; the error says which step failed; received is counted once per known stream, dlq and dlq failures once per attempted write |
| ConsumerModel.VerdictCounts | telemetry.go:314-405 | of a delivery that reaches its handler, processed grows exactly when the last verdict is nil, skipped by Discarded when it is a discard, failed by the verdict's category otherwise |
| Errors.OutermostWins | errors.go:55-67 | an error tree's verdict is that of its first classified node in pre-order, outermost first |
| Errors.VerdictOfTree | errors.go:69-93 | every error is exactly one of permanent, discard and retryable; nil is none |
| Errors.OtherwiseRetryable | errors.go:81-86 | what is neither nil, discard nor permanent is retryable: the retry loop's fallthrough |
| Errors.Classify | errors.go:30-53 | nil stays nil, and a new outer class overrides any inner verdict |
| Strconv.FormatParseRoundTrip | consumer.go:707-713 | ParseInt reads back what FormatInt writes, for every int64 |
| Strconv.ParseIntAccepts | consumer.go:707-713 | ParseInt accepts exactly an optional sign and a digit run whose value is an int64, and yields that value |
| Validation.SchemaVersionPattern | validation.go:10 | the recogniser accepts exactly three digit runs joined by dots |
| Validation.EventTypePattern | validation.go:9 | the recogniser accepts exactly two or three lower-case segments joined by dots |
| Validation.SegmentAlphabet | validation.go:9 | a segment is a lower-case ASCII letter followed by lower-case letters, digits and underscores |
| Validation.EnvelopeRules | validation.go:16-42 | an envelope is valid exactly when no required field is empty, it has a timestamp, and type and version match their patterns |
| Validation.RoutableVersion | registry.go:119-130 | a well-formed version routes exactly when its leading digit run fits in an int, by that run's value |
| Backoff.BackoffUpperBound | config.go:327-341 | the loop computes the wrapping doubling capped at MaxBackoff |
| Backoff.WorstCaseBackoff | config.go:347-353 | the loop computes the wrapping sum of the bounds |
| Backoff.WorstCaseIsTotal | config.go:343-353 | the worst case is the sum of exactly MaxImmediateRetries bounds min(InitialBackoff x 2^i, MaxBackoff), when that sum fits in an int64 |
| Backoff.DoublingExactIff | config.go:320-341 | for every InitialBackoff and retry the bound is min(InitialBackoff x 2^i, MaxBackoff) exactly when MaxBackoff is at most 2^62 |
| Backoff.DoublingOverflows | config.go:333-336 | a larger MaxBackoff has an InitialBackoff and a retry whose doubling overflows |
| Backoff.BoundMonotone | config.go:320-341 | the bound never shrinks from one retry to the next and never exceeds MaxBackoff |
| Backoff.SumClosedForm | config.go:343-353 | the sum of the bounds in closed form |
| Backoff.AcceptedBudgetIff | config.go:284-290 | an accepted configuration's worst-case backoff is below ClaimMinIdle exactly when the exact sum fits in an int64 |
| Backoff.SleepBelowMinIdleIff | consumer.go:803-823 | for every configuration no jitter choice sleeps as long as ClaimMinIdle in one delivery exactly when the longest sleeps add up to less |
| Backoff.SleepBelowMinIdle | config.go:284-290 | an accepted configuration whose exact sum fits keeps the longest sleeps below ClaimMinIdle |
| Backoff.OverlongBackoffAccepted | config.go:284-290 | a configuration that passes whatever ClaimMinIdle is, with a jitter choice that sleeps at least as long |
| Backoff.OverflowCanShortenSleep | config.go:333-336 | a configuration that passes, whose exact sum overflows, and whose every jitter choice sleeps less than ClaimMinIdle |
| ConfigModel.Config.Validate | config.go:171-220 | the first failing check, and the fields as defaulted up to it |
| ConfigModel.Config.ValidateConsumer | config.go:228-301 | the first failing check, and the fields as defaulted up to it; a negative MaxDeliveryAttempts passes |
| ConfigModel.Config.Accept | consumer.go:59-73 | an accepted configuration runs its reclaim loop; its worst-case sum is below ClaimMinIdle exactly when it fits in an int64, and then so is every jitter choice; every jitter choice is below exactly when the longest sleeps add up to less |
| Telemetry.KindName | telemetry.go:407-420 | an unstated outcome reads as a failure, a stated one as itself |
| Telemetry.DeliveryRecorder.End | telemetry.go:314-405 | only the first call records: one duration, exactly one terminal counter, the probe filled before an unstated outcome is relabelled |
| Telemetry.MetricsConserved | telemetry.go:314-405 | over every run received = processed + failed + skipped + open deliveries + undecodable entries, one duration per terminal counter, dlq at most received |
| Telemetry.TerminalsCount | telemetry.go:362-378 | over every run, processed counts the deliveries that ended processed, skipped those skipped for each reason, failed those failed for each category, with unstated ones under Unknown |
| Telemetry.EventsCount | telemetry.go:314-405 | over every run, received, retries, dlq and dlq failures count the arrivals, retries and accepted and refused letters |
| RegistryModel.TypedHolds | registry.go:41-58 | the typed map holds exactly the accepted typed registrations |
| RegistryModel.ScanIsUnique | registry.go:93-103 | a scan of the accepted registrations finds at most one match for an event |
| RegistryModel.RefusedIffExcluded | registry.go:41-74 | a registration is refused exactly when taking it would break exclusivity, and the error names what is in the way |
| RegistryModel.Registry.AddTyped | registry.go:45-58 | refused exactly when the topic has a raw handler or the route is taken; a refusal changes nothing |
| RegistryModel.Registry.AddRaw | registry.go:61-74 | refused exactly when the topic has any handler; a refusal changes nothing |
| RegistryModel.Registry.Lookup | registry.go:93-103 | the match that a scan of the accepted registrations finds |
| RegistryModel.Registry.TopicList | registry.go:105-112 | every registered topic, once each |
| Lifecycle.Consumer.RegisterHandler | consumer.go:83-99 | the first failing check in order, then the registry's answer; nothing is registered once running |
| Lifecycle.Consumer.RegisterRawHandler | consumer.go:107-121 | refused without a topic, once running, or by the registry |
| Lifecycle.DefRules | consumer.go:125-142 | each refusal of a definition applies exactly when its own check fails and the ones before it pass |
| Lifecycle.Consumer.BeginRun | consumer.go:168-179 | both checks, the topic snapshot and the running flag in one step |
| Lifecycle.Consumer.Run | consumer.go:159-269 | on every exit path the reader it opened is closed exactly once, every failure is reported, and neither reader nor sink is left behind |
| Lifecycle.Consumer.Close | consumer.go:577-591 | does nothing once running; otherwise releases the reader it finds |
| Lifecycle.SnapshotIsFinal | consumer.go:159-179 | over every interleaving at most one Run passes, and its topics are those of the final registry |
| Lifecycle.ReaderClosedOnce | consumer.go:330-352 | over every interleaving a reader is closed at most once, by its own Run, not while serving, and exactly once by the time Run returned; reader and sink are set while serving and cleared afterwards |
| Lifecycle.CloseStandsAside | consumer.go:564-591 | over every interleaving a call of Close changes nothing |
| Lifecycle.RegistryStaysExclusive | consumer.go:101-121 | over every interleaving each topic has typed handlers or one raw handler, and nothing changes once Run started |
| Lifecycle.HandlerReceives | consumer.go:75-99 | an accepted typed handler receives every later event of its type and topic with the same numeric major |
| Lifecycle.StreamsNameTopics | consumer.go:559-562 | distinct topics have distinct streams; a DLQ stream is a topic's stream exactly when the topic carries the suffix |
| Lifecycle.TopicsByStream | consumer.go:201-208 | the table holds exactly the subscribed topics under their streams |
| PublisherModel.Publisher.Publish | publisher.go:96-175 | one record when every stage passes, otherwise none and one failure counted at the first failing stage |
| PublisherModel.SentSaysWhatWasAsked | publisher.go:41-53 | what is sent reads back with the last option's correlation id, else the context's, else the generated one, with the generated event id, the publisher's source and the definition's type and version |
| PublisherModel.FailsAtStage | publisher.go:96-175 | which calls fail, and at which stage: topic, then ids and envelope, then marshalling, then transport |
| PublisherModel.AcceptedIsRoutedIff | publisher.go:136-168 | given a faithful codec, what Publish accepts passes decoding and validation and reaches the registry exactly when its leading digit run fits in an int, by that value |
| PublisherModel.PublishedReachesHandler | publisher.go:136-168 | a definition with a registered handler can be published, and the event comes to that handler's retry outcome |
| PublisherModel.OversizedMajorPublishes | publisher.go:146-148 | a version with an oversized major is published and then unroutable |
| Harness.Dispatch | testing/dispatch.go:123-196 | reports nacked exactly when dispatch returned an error, dead-lettered exactly when the sink took a letter, harness errors apart; the application's sink is untouched |
| Harness.StampMetadata | testing/dispatch.go:139-143 | the caller's metadata with the library's attempt key taking precedence |
| Harness.Defaults | testing/dispatch.go:123-132 | without options: attempt 1, no metadata, collapsed backoff, a DLQ that works |
| Harness.LastOptionCounts | testing/dispatch.go:19-47 | of several options that set the same thing the last one counts |
| Harness.HarnessAgrees | testing/dispatch.go:108-122 | with a live context and the same DLQ behaviour, the harness's outcome is production's for the same bytes and attempt |

## Left out

- The subscriber's goroutines are a transition system on values rather than classes, because several of them change the
  same channels step by step; what that does not capture is aliasing and the Go memory model. The Redis commands are
  transitions of the stream for the same reason.
- go-redis, Watermill's router and its marshaller: only the contracts the wrappers rely on (commands as transitions; nil
  acks and an error nacks; a message may be nacked undispatched while stopping; unmarshalling as an arbitrary property
  of the entry).
- Trimmed streams, entries deleted inside a live stream, and cluster or failover behaviour other than a vanished group or
  stream; ids are naturals that grow.
- JSON syntax and bytes: the codec is abstract and a payload is text. Byte-for-byte preservation of an event is not
  claimed, because marshalling compacts raw messages.
- Spans, propagators, logs, queue latency, metric attributes other than category and reason, and the values of durations.
- Real clocks, the jitter's distribution and uniqueness of generated ids: choices within bounds.
- Eventual delivery: progress is stated as enabledness (`ConsumeProgress`, `ConsumeRounds`), as steps that run out (`ConsumeLoops`) and as schedules that exist (`ConsumeDrain`), not as liveness.
- Handler panics, which end the process: a crash of the process in the protocol, an unstated outcome in the recorder.
- Errors whose own `As` or `Is` methods answer for `classifiedError`; an error is a tree of what `Unwrap` gives.
- A Go `int` is taken to have 64 bits.
- Client, pool and TLS set-up, the default consumer name, `markRunning` (only tests call it), and
  `typedDispatch`'s payload decoding, whose failure is one more verdict of an arbitrary handler.
- ConsumeAttempts.StampsAreCounters: assumes that a client does not send an XCLAIM of the same line again after one that took effect and ClaimMinIdle has passed; go-redis retries a command whose reply is lost, and then the counter moves twice and the stamp is one behind even with one instance. A retry within ClaimMinIdle claims nothing and is the model's claim whose reply is lost. The other results on attempts, dispatches and handler calls assume the same.
- ConsumeAttempts.WorkBound: the results on attempts, dispatches, handler calls and timing hold while the group has never been lost; after a loss every entry still on the stream is delivered again with a new counter. Those of `ConsumeSafety.dfy` on events, slots and Close have no such hypothesis.
- ConsumePoison.PoisonBounded: assumes that the subscription's own process has not begun to close, because from then on a waiter may leave its slot without an XACK while its over-cap dispatch is under way, and that its own dead letters and XACKs succeed; `ConsumeStale.WithinCapAnywhere` and `ConsumeAttempts.DeliveriesWithinCap` assume neither.
- ConsumePoison.PoisonTerminates: needs timely deliveries, as `config.go` asks of ClaimMinIdle; without them the bound is that of `ConsumePoison.PoisonBounded`, and from Concurrency 2 on it is larger.
- ConsumeStale.WithinCapAnywhere: counts every subscription the stream ever had, also those of processes that are gone.
- ConsumeTotals.TotalAnywhere: counts the same, and its hypothesis on dead letters, XACKs and Close is on each of them.
- ConsumeTiming.TimedExclusivity: takes the bound on each delivery's whole time as a hypothesis; `Bridge.OccupancyBound` gives the part that is handler calls, backoff and DLQ write, the rest being command round trips.

# PitchLab in Dafny

PitchLab replays and analyses baseball pitches: a tape or a device produces readings, a Kafka
consumer stores and announces each of them once, a WebSocket hub shows them live, an API serves
lists and cached rollups, and a detector compares outings. The guarantees of these parts are argued
in comments beside the code. This project states them over models of the code and proves them, for
every input, every interleaving and every run.

The parts are independent; each file is one module.

* **Ingest.** `Wire`, `PitchTable`, `LiveCounters` hold the data; `Ingest` is the state machine of
  partition logs, committed offsets, the pitch table, the analyzed topic, dead letters and the live
  Redis hash, one durable effect a step; `IngestSafety`, `IngestIdempotence` and `IngestTheorems`
  carry the invariants and the promises; `IngestProgress` bounds what a message can cost,
  `IngestRetry` says what is tried again and what is given up, `IngestReadings` what the columns and
  the live sums hold, field by field, `IngestAnnouncements` which stored pitches can still be
  announced; `IngestScores` compares the live scores with the stored ones, `IngestOrder` and `IngestKeying` say
  what the keys are for; `Consumer` is the consumer loop and the pitch handler as
  imperative code, each method of which only extends a run of that machine. `Drain` is the dead-letter
  replay tool.
* **Live channel.** `ClientQueue` and `ClientNumbers` are one connection, `Hub` and `HubTheorems` the
  registry and the fan-out, `Watch` the reference client and the end-to-end account of gaps.
* **Analytics.** `AnalyticsCache` is the generation protocol between readers, writers and Redis, as a
  state machine and as the object that performs its steps; `AnalyticsFreshness` says what a hit
  contains, `AnalyticsExposure` which stores are safe, and `AnalyticsReader` is the request handler;
  `OrderStatistics` and `Detector` are the robust detector over reals; `Pagination` is keyset
  paging over a growing table.
* **Small machines.** `Breaker`, `Limiter`, `MetricsThrottle`, `NullRatio`, `Tape`, `ReplayClock`.
* **The password string.** `Decimal`, `Base64`, `PasswordHash`.

Five findings are stated as theorems, each with its exact condition.

* An analytics hit can be stale although nothing failed and nothing was lost but by expiry
  (`AnalyticsExposure.LateHitIsStale`); the comment at internal/cache/cache.go:44-50 rules that out.
  `AnalyticsExposure.StoreExactly` says of every store in every reachable state whether its entry can
  later be served stale, `CoveredExactly` puts the condition in the storing reader's terms (its
  generation read was answered, the counter has not gone since and does not expire within the entry's
  lifetime), and `GuardedRunsAreFresh` that a run whose stores all meet it serves nothing stale.
* A drain can be kept reading for ever by one letter if and only if it has neither a ceiling nor a dry
  run (`Drain.BoundedExactly`). A limit alone is not enough, because a publish whose acknowledgement is
  lost is not counted towards it; it bounds a drain only up to the acknowledgements that are lost
  (`Drain.LimitBoundsByLosses`).
* A session's pitches are numbered in the order in which their messages were appended, in every run, if
  and only if the producer's keys send all its readings to one partition and it does not happen both
  that commits fail and that readings are dead-lettered (`IngestKeying.OrderExactly`). The numbering
  itself is dense however readings are routed: the comment at internal/processor/pipeline.go:407-409
  argues from the routing, but the upsert of the session before it holds the session's row to the end
  of the transaction (`IngestTheorems.SessionIndexesDense`).
* The live score count equals the one recomputed from PostgreSQL if and only if every answered pitch of
  the session had an output to store and was stored under the model version that is active when the
  question is asked (`IngestScores.LiveScoresExactly`); `GuardExactly` says which steps keep that, and
  `OnePitchCounts` gives the runs in which no model is registered, the answer has no output, or another
  version has become active since.

* A failed announcement is final: a stored pitch that has not been announced can still be if and only if
  the reader that stored it has not come to it yet (`IngestAnnouncements.AnnouncedExactly`). The retry
  runs the whole handler again, which finds the pitch stored and passes it over
  (`IngestReadings.FailedAnnouncementIsPassedOver`), where the comment at
  internal/processor/pipeline.go:183-185 calls the replay harmless.

Where README.md:440 of the repository says that the oldest metrics message is dropped, the code drops
the newest; the model follows the code.

Assumptions, each of them part of a model: a partition has one owner at a time; PostgreSQL holds an
upserted row until its transaction ends; a commit under a cancelled context does not advance the
offset; a dead letter that cannot be written is recorded in a ghost outcome of its own, because the
code only logs it and the offset still moves; what is counted of the analyzed topic is calls to
publish, and an announcement may be missing after one that failed; a clock does not run backwards
where a theorem says so; during one drain a replayed message comes back as at most d letters, for any d.

## Model

| member | source | states |
|---|---|---|
| IngestTheorems.NothingSkipped | internal/kafka/consumer.go:195-324 | in every run with failures, crashes, rebalances and failed commits, each offset below a committed one has its pitch in the table, its exact bytes in a dead letter, or a recorded failed dead-letter write |
| IngestTheorems.EffectsAtMostOnce | internal/processor/pipeline.go:105-193 | whatever is redelivered or replayed, a pitch uid has at most one row, one counter update and one publish call; announced pitches were counted, counted ones are stored, and each stored row has the uid, session, speed, spin and whiff mark of the reading at its partition and offset |
| IngestTheorems.PublishedAfterStored | internal/processor/pipeline.go:136-192 | the step that publishes a pitch starts with its row already stored and counted |
| IngestTheorems.SessionIndexesDense | internal/processor/pipeline.go:391-451 | in every reachable table, however readings are routed, the indexes of a session are exactly 1 to n, in the order its pitches were first stored |
| IngestProgress.LockIsFreed | internal/processor/pipeline.go:391-415 | a reader that waits for its session waits for one other reader, which does not wait itself and whose next operation or crash lets it go on |
| IngestKeying.OrderExactly | internal/kafka/producer.go:94-97 | sessions are numbered in append order in every run of a class, in which commits may or may not fail and readings may or may not be given up, if and only if all readings of a session go to one partition and not both are allowed |
| IngestOrder.CommitsKeepUpToDate | internal/kafka/consumer.go:235-249 | while no commit fails, no row lies beyond its partition's committed offset and the rows of a partition are in the order of its log |
| IngestOrder.UnfiledKeepNoGaps | internal/kafka/consumer.go:276-324 | while no reading is dead-lettered, every reading at or below a stored one in its log is stored and the rows of a partition are in the order of its log |
| IngestKeying.ApartLosesOrder | internal/kafka/producer.go:94-97 | readings of one session on two partitions: a run without any failure stores the later one first |
| IngestKeying.GivingUpLosesOrder | internal/kafka/consumer.go:235-249 | on one partition: a reading given up, its offset not committed, and a restart store the earlier one last |
| IngestTheorems.RowsAreFinal | internal/db/dbgen/pitches.sql.go:152-166 | rows, indexes included, are never changed or removed |
| IngestTheorems.LiveNeverAhead | internal/cache/live.go:73-124 | in any run the live pitch, speed, spin and whiff counts never exceed what the stored rows give |
| IngestTheorems.LiveEqualsRows | internal/cache/live.go:131-196 | with no key lost and no update fallen to a crash or a failure, and none pending, every counter and the averages equal recomputation from the rows, for the scores from what inference answered for them |
| IngestScores.LiveScoresExactly | internal/db/queries/sessions.sql:86-116 | under the same conditions the score count of the query that joins the active version is at most the live one, and equal to it, sums and averages included, exactly when every answered row had an output and was stored under the version active now |
| IngestScores.GuardExactly | internal/processor/pipeline.go:474-513 | a step keeps that condition exactly when it does not store an answered row without an active version or an output, and does not change the version of a session with answered rows |
| IngestScores.OnePitchCounts | internal/processor/pipeline.go:222-228 | one answered pitch, delivered without any failure, counts one live, and one in the query only if a version was active, the answer had an output and the version still is; every other case gives zero |
| IngestScores.ReachScores | internal/processor/pipeline.go:474-521 | in every run a score is stored with its row exactly as the guards of the transaction say |
| IngestTheorems.ReplayCeiling | cmd/dlq-replay/main.go:130-155 | with a ceiling, no message of a work topic and no dead letter ever carries a replay count above it |
| IngestTheorems.ReachInv | internal/kafka/consumer.go:158-324 | the invariant behind these theorems holds in every reachable state |
| IngestSafety.StepIsLegal | internal/kafka/consumer.go:252-324 | every operation of a reader moves its offsets past a message only from a settled outcome and adds at most one row, call or letter, each the right one |
| IngestSafety.EnactKeepsSettled | internal/kafka/consumer.go:252-324 | no effect of one reader takes away the outcome another offset already has |
| IngestProgress.MessageEnds | internal/kafka/consumer.go:276-324 | whatever fails, and whatever others do meanwhile, a reader still on one message has done at most 6 * maxAttempts operations on it besides waiting for its session, so its next one at the latest frees it; operations done and a positive count of those left add up to at most the count at the start, itself at most 6 * maxAttempts + 1 |
| IngestProgress.NewPitchDelivered | internal/processor/pipeline.go:105-193 | with nothing failing, six operations store, count, announce and commit a new pitch, whatever inference answers: the whole state afterwards, with its row, its stored score, its commands on the live hash and its offset, and everything else as before |
| IngestReadings.RowsAreReadings | internal/processor/pipeline.go:576-605 | in every reachable table each row's speed, spin, session, uid and whiff mark are the fields of the reading at its partition and offset that belong there, and that reading keeps every rule of validateRaw |
| IngestReadings.LiveSumsReadings | internal/processor/pipeline.go:203-238 | with no key lost, no update failed and none pending, each live field of a session is the sum of what the readings behind its rows say, taken from the readings themselves, and for the scores from what inference answered |
| IngestReadings.LiveAveragesReadings | internal/cache/live.go:131-196 | and the averages are those sums over the readings that have a value, or nothing without one |
| IngestReadings.LostKeyStartsAgain | internal/cache/live.go:174-183 | a session whose key goes starts again from zero, and no other session is affected |
| IngestReadings.SoundReadingDelivered | internal/processor/pipeline.go:105-278 | a reading that keeps the rules, is new and finds its session free ends as one row of its own fields, counted, announced and committed, without a letter, however many failures that may pass, short of maxAttempts, come before |
| IngestReadings.UnsoundReadingFiled | internal/processor/pipeline.go:105-117 | a wrong event type, data that cannot be decoded or any broken rule is refused at the first attempt: one letter of class BUSINESS_RULE_VIOLATION or the record that it could not be written, and nothing else |
| IngestReadings.UnreadableFiled | internal/kafka/consumer.go:257-273 | bytes that do not parse get a letter with their class after one attempt, without the handler |
| IngestReadings.KnownPitchPassedOver | internal/processor/pipeline.go:162-168 | a pitch that is in the table already leaves no row, count, announcement or letter, and its offset is committed |
| IngestReadings.CacheFailureIsHarmless | internal/processor/pipeline.go:171-238 | a cache update that fails or is cut short leaves the pitch announced and committed, with only the counters of its session marked as short |
| IngestReadings.FailedAnnouncementIsPassedOver | internal/processor/pipeline.go:162-187 | a publish that fails in a way that may pass is retried with the whole handler, which finds the pitch stored: the offset is committed without an announcement |
| IngestReadings.GivenUpPitchComesBack | cmd/dlq-replay/main.go:170-193 | a pitch whose attempts were all used up, replayed from its letter, is stored from its new offset as it would have been, under its own key, with one replay more in its header |
| IngestRetry.RetriedPitchDelivered | internal/kafka/consumer.go:278-318 | for every number of failed attempts below maxAttempts, each failed by something that may pass, before or inside the transaction, the state afterwards is that of a delivery without failures |
| IngestRetry.ExhaustedPitchFiled | internal/kafka/consumer.go:302-324 | when the last attempt allowed fails in such a way too, one letter of class RETRY_EXHAUSTED with maxAttempts attempts, or the record that it could not be written, is all that is added |
| IngestRetry.LastingFailureFiled | internal/kafka/consumer.go:295-300 | a failure that will not pass gets its letter on the attempt it happens, with that many attempts and the class its cause has, and nothing is stored |
| IngestRetry.LastingIsNamed | internal/kafka/consumer.go:539-560 | every failure that will not pass has one of the four classes that name its cause |
| IngestRetry.LettersCountTries | internal/kafka/consumer.go:278-324 | in every run, behind each letter of readable bytes there are, at the step that filed it, as many failed attempts at its message since the fetch as the letter says, and behind each of class RETRY_EXHAUSTED exactly maxAttempts |
| IngestRetry.CancelledIsLeftOver | internal/kafka/consumer.go:306-316 | a cancelled reader does not wait for another attempt: no letter, nothing committed, back at the committed offset |
| IngestRetry.CancelledStops | internal/kafka/consumer.go:200-242 | a cancelled reader between messages, or with a finished one, commits nothing and stops |
| IngestRetry.RestartGoesBack | internal/kafka/consumer.go:230-242 | a crash or rebalance takes a reader to its committed offset and costs at most the counter update of a row not yet counted |
| IngestAnnouncements.AnnouncedExactly | internal/processor/pipeline.go:162-187 | in every reachable state a stored pitch without an announcement gets one in some continuation if and only if a reader still holds it between storing and announcing |
| IngestProgress.AttemptDelivers | internal/processor/pipeline.go:105-193 | the five operations of any attempt that nothing hinders deliver the pitch, whatever inference answers |
| Consumer.Worker.RunReader | internal/kafka/consumer.go:158-250 | the loop goes on until its environment ends or its context is cancelled; every execution is a run of the machine and skips no offset |
| Consumer.Worker.ProcessMessage | internal/kafka/consumer.go:252-324 | a fetched message is left finished or abandoned after at most maxAttempts attempts |
| Consumer.Worker.HandlePitchRaw | internal/processor/pipeline.go:105-193 | the handler, step by step, ends as the reply says: finished, or failed with the error it returns; inference may give nothing and the pitch is stored all the same |
| Consumer.UpsertSession | internal/processor/pipeline.go:391-405 | the upsert waits exactly while another open transaction has upserted the session |
| Consumer.Worker.Persist | internal/processor/pipeline.go:360-472 | one transaction: the upsert of the session, which may wait, the next index, the insert that does nothing on a known uid, the score where it can be stored, the commit; a row it leaves in hand has the uid, session, speed, spin and whiff mark of the reader's own message |
| Consumer.Worker.UpdateCache | internal/processor/pipeline.go:203-238 | the cache update has no error to report and may be cut short |
| Consumer.Worker.Triage | internal/kafka/consumer.go:286-318 | an error is dead-lettered, waited out or given up on a cancelled context, each a step of the machine: only a failure that is not marked permanent, and that is a cancellation, network trouble or no constraint violation, is tried again or left to redelivery, and only any other ends in a letter here |
| Consumer.Worker.DeadLetter | internal/kafka/consumer.go:412-489 | the letter holds the exact bytes and the replay count the message came with; a write that fails is recorded and the message is finished all the same |
| Consumer.Worker.CommitMessage | internal/kafka/consumer.go:235-249 | a commit moves the offset, fails and leaves it, or stops the reader when its context is cancelled |
| Wire.ReplayCountRoundTrip | internal/kafka/consumer.go:398-410 | the count the replay tool writes into the headers is the one the consumer reads |
| Wire.FirstCountDecides | internal/kafka/consumer.go:398-410 | other headers are passed over, the first count decides, and one that cannot be read or is negative counts as none |
| Wire.PitchUidInjective | internal/events/envelope.go:234-236 | equal pitch uids mean equal game, at-bat and pitch number, even when the game reference holds colons |
| Wire.ClassOf | internal/kafka/consumer.go:539-560 | every error classified as permanent has a class of its own in its dead letter |
| PitchTable.DenseMax | internal/db/dbgen/pitches.sql.go:661-674 | on a densely numbered table the query for the next index gives the number of the session's rows plus one |
| PitchTable.DenseMeans | internal/processor/pipeline.go:407-451 | the local numbering rule is the same as indexes 1 to n in storing order |
| LiveCounters.ExecuteKeepsAgreement | internal/cache/live.go:73-124 | any prefix of a pitch's commands keeps the hash equal to the sum over exactly the credited contributions |
| LiveCounters.AveragesAgree | internal/cache/live.go:185-196 | with all rows credited, the incremental averages are those over the rows that have a reading |
| LiveCounters.CreditedAtMostTotal | internal/cache/live.go:73-124 | what has been credited never exceeds the recomputed total |
| Drain.ReadsBounded | cmd/dlq-replay/main.go:100-194 | with a ceiling or a dry run, a drain reads at most its initial budget although each replayed message comes back up to d times and acknowledgements are lost; with a ceiling that is, over the letters, the geometric sum of d over the replays each has left |
| Drain.LimitBoundsByLosses | cmd/dlq-replay/main.go:100-194 | with a limit, reads are at most the letters there are, d for each message the limit leaves, and d for each publish whose acknowledgement is lost |
| Drain.BoundedExactly | cmd/dlq-replay/main.go:100-194 | for any d of at least 1, reads are bounded for every queue whatever happens if and only if a ceiling or a dry run is set |
| Drain.StubbornLetterCircles | cmd/dlq-replay/main.go:130-155 | without them, limit or not, one letter can be read any number of times in one drain |
| Drain.DrainIsFaithful | cmd/dlq-replay/main.go:106-194 | every message sent carries the payload, key and next count of one letter that filter and ceiling let through, no letter is sent twice, every letter read is tallied once under what stopped it, messages sent are those counted as replayed and at most as many more as failed, limit and dry run are kept, and a drain without failures has sent every such letter it read |
| Drain.Drainer.DrainPartition | cmd/dlq-replay/main.go:100-194 | the loop is the specified run, every iteration reads one letter, and it stops only when as many as the limit were replayed, at the end of the partition or when interrupted |
| Drain.Drainer.ReadLetter | cmd/dlq-replay/main.go:121-193 | one letter is skipped, left, counted as failed or published as the flags say |
| Drain.Drainer.PublishRaw | cmd/dlq-replay/main.go:269-294 | a publish that the broker took is sent whether or not its acknowledgement arrives, and an error is reported whenever it does not |
| ClientQueue.Client.Enqueue | internal/ws/client.go:163-200 | a message is numbered and queued, or resolved at once, without waiting: an anomaly and the terminal message by the signal to disconnect, any other by a drop, as `ClientNumbers.EnqueueResolves` says kind by kind |
| ClientQueue.Client.NoteDrop | internal/ws/client.go:227-254 | drops are counted in windows and the fiftieth spends a number on a notice that may itself be lost |
| ClientQueue.Client.WritePump | internal/ws/client.go:289-338 | one turn of the writer's select, and the close code it ends with |
| ClientQueue.DeliveriesKeepNumbers | internal/ws/client.go:289-338 | the writer neither reads nor changes numbers and fates |
| ClientNumbers.EnqueueIsSound | internal/ws/client.go:163-254 | enqueuing keeps the account of numbers, drops, notices and the queue bound exact |
| ClientNumbers.EnqueueResolves | internal/ws/client.go:163-200 | with room the message is queued last and nothing else changes; without, an anomaly or the terminal message sets the signal to disconnect and is not counted as dropped, and every other kind adds one drop and leaves the signal as it is; metrics that are switched off change nothing |
| ClientNumbers.FiftiethDropIsNoticed | internal/ws/client.go:227-254 | with a full queue and a new window, 49 drops within a minute spend 49 numbers and the fiftieth spends two, the second on a notice that is queued if the writer has made room and lost otherwise |
| ClientNumbers.TurnIsSound | internal/ws/client.go:289-338 | no turn of the writer upsets that account |
| ClientNumbers.AcceptedMeans | internal/ws/client.go:163-254 | the accepted numbers are zero and exactly those whose fate is to have been queued |
| Hub.Server.Deliver | internal/ws/hub.go:123-126 | the fan-out loop over a set of clients does to each watcher of the session one enqueue and to nobody else anything |
| Hub.Server.Register | internal/ws/hub.go:177-184 | a client is added under its session while the loop runs, waits between the end of the loop and the closing of its channel, and is refused afterwards |
| Hub.Server.Remove | internal/ws/hub.go:140-161 | a registered client is dropped, its queue closed and an empty session forgotten; for any other client nothing happens |
| Hub.Server.Stop | internal/ws/hub.go:170-174 | the registry is cleared and no queue is closed |
| Hub.Server.Close | internal/ws/hub.go:103-105 | the channel others watch is closed only after that |
| Hub.Server.Publish | internal/ws/hub.go:203-231 | a publication is queued in order exactly when the channel is not yet closed and there is room, and the answer says so |
| Hub.Server.ServeClosed | internal/ws/handler.go:274-293 | a closed outing's client gets the terminal message behind its snapshot, its queue is closed, and the registry is as before |
| Hub.Server.Write | internal/ws/client.go:270-338 | one turn of a connection's writer touches that connection only |
| Hub.Server.Answer | internal/ws/client.go:390-412 | a watcher's message turns its own metrics on or off, and on when it does not say which; any other message changes nothing |
| HubTheorems.RunKeepsInv | internal/ws/hub.go:103-174 | the invariant of registry, counter and connections holds in every run |
| HubTheorems.NeverPanics | internal/ws/hub.go:135-161 | no queue is ever closed twice or sent on after its close |
| HubTheorems.CounterIsRegistrySize | internal/ws/hub.go:140-174 | the counter is the number of registered clients, each is registered under its own session, and no session is kept without a watcher |
| HubTheorems.NumbersAccounted | internal/ws/client.go:163-254 | in every run the numbers split exactly into those taken or queued, dropped, undeliverable and lost notices; the former are in increasing order, the queue is within its bound, and fifty drops pay for each notice |
| HubTheorems.BroadcastReachesEveryWatcher | internal/ws/hub.go:123-126 | a broadcast resolves its message for every watcher in that one step, however full the queues are |
| HubTheorems.BroadcastIsNeverLost | internal/ws/client.go:163-200 | in every run, however long after its broadcast, each watcher of the time has an anomaly or the terminal message in its stream, under its number, or stands signalled to disconnect; a pitch, or metrics not switched off, is in the stream or counted as dropped; and with room it is in the stream |
| HubTheorems.OthersHearNothing | internal/ws/hub.go:123-126 | a broadcast changes no connection that does not watch its session |
| HubTheorems.BroadcastsAreFifo | internal/ws/hub.go:103-131 | in every run the publications accepted are those broadcast, in the same order, followed by those that wait |
| HubTheorems.RegisteredHears | internal/ws/hub.go:111-126 | a connection opened and registered while the hub serves gets the next publication for its session as number one behind its snapshot |
| HubTheorems.SwitchGovernsMetrics | internal/ws/client.go:163-166 | metrics are left out exactly when the watcher switched them off, a switch without a value turns them on, and nothing else is affected |
| HubTheorems.ClosedOutingIsTold | internal/ws/handler.go:274-293 | a client of a closed outing takes its snapshot and the terminal message and ends as completed |
| HubTheorems.UnregisteredIsClosed | internal/ws/hub.go:140-161 | unregistering closes the queue, takes exactly that client out of the registry and forgets a session nobody else watches |
| HubTheorems.TurnDecides | internal/ws/client.go:289-338 | in every run a connection ends at the turn of its writer that finds a reason, with that reason's code, and takes nothing afterwards; at any other turn it goes on, and a delivery takes the first message queued |
| HubTheorems.UndeliverableForEver | internal/ws/client.go:180-189 | a number marked as not deliverable, which `ClientNumbers.EnqueueResolves` gives to anomalies and terminal messages only, leaves the signal to disconnect on for ever, and only such a number sets it |
| HubTheorems.EndingsExplained | internal/ws/client.go:289-338 | close codes mean what they say and nothing is taken after the terminal message |
| HubTheorems.ShutdownIsNotCompletion | internal/ws/hub.go:163-174 | a client registered at shutdown is never told that its session completed, unless it was sent the terminal message |
| HubTheorems.NothingDeliveredAfterTheLoop | internal/ws/hub.go:103-131 | once the loop has ended, a publication accepted before the channel is closed stays undelivered and no connection gets another number from the hub |
| HubTheorems.OthersDoNotMatter | internal/ws/hub.go:107-132 | a connection's queue, numbers, drops and fate equal those of the run without the other connections |
| Watch.Observe | cmd/wsclient/main.go:109-132 | the read loop reports the gaps of the numbers it could decode |
| Watch.GapsAddUp | cmd/wsclient/main.go:122-129 | the reported gaps add up to the count of numbers below the last received one that were not received |
| Watch.GapsAreTheMissing | cmd/wsclient/main.go:122-129 | a number lies in a reported gap if and only if it is below the last received one and was not received |
| Watch.ReportsAreTheLosses | cmd/wsclient/main.go:109-132 | end to end, in every run, those are the numbers spent without being queued or taken without being written |
| AnalyticsFreshness.HitIsFresh | internal/cache/analytics.go:16-113 | if the generation read was answered, a hit contains every row bumped before that read unless the counter was lost or expired between the storing and the hitting reader's reads of it |
| AnalyticsFreshness.HitsAreFreshWhileCounterLives | internal/api/handlers_athletes.go:144-163 | so it does while the athlete's counter has never been lost nor expired |
| AnalyticsFreshness.HitIsBounded | internal/cache/analytics.go:94-113 | in all runs a hit is within its entry's lifetime and lacks no row committed before the storing reader began |
| AnalyticsFreshness.MissIsCurrent | internal/api/handlers_athletes.go:156-163 | a miss serves every row committed before its reader began |
| AnalyticsFreshness.RunKeepsInv | internal/cache/analytics.go:16-113 | the invariant of counters, marks, entries and readers holds in every run, with failures, losses and expiry |
| AnalyticsFreshness.HitWasComputed | internal/cache/analytics.go:61-113 | in every run a hit was computed and filed by a reader of the same athlete and variant that had read the same generation |
| AnalyticsFreshness.StoredIsServed | internal/cache/analytics.go:61-113 | an entry that was filed is found for five minutes by every reader of its athlete, generation and variant, unless Redis loses it or does not answer |
| AnalyticsFreshness.UnansweredReadsZero | internal/cache/analytics.go:11-28 | a reader whose generation read was not answered goes by generation zero |
| AnalyticsExposure.StoreExactly | internal/cache/analytics.go:94-113 | in any reachable state, the entry a store files can be served stale in some continuation that does not lose the counter if and only if, when it is filed, the counter is below its generation or expires within its lifetime, or a later bump is known at that generation already |
| AnalyticsExposure.CoveredExactly | internal/cache/cache.go:44-50 | of a storing reader whose generation read was answered and whose counter has not gone since, that is so exactly when the counter expires within the entry's lifetime |
| AnalyticsExposure.GuardedRunsAreFresh | internal/cache/cache.go:44-50 | a run in which counters are lost by expiry only and no store files an exposed entry serves no stale hit |
| AnalyticsExposure.ShieldedForEver | internal/cache/analytics.go:61-113 | an entry that is not exposed when filed is served stale to nobody from then on |
| AnalyticsExposure.ExposedLeads | internal/cache/analytics.go:30-53 | an exposed one has a continuation that serves it stale |
| AnalyticsExposure.LateStoreIsExposed | internal/cache/cache.go:44-50 | an exposed store is reached by one pitch with its bump, nearly a day without pitches and a request, with nothing failing |
| AnalyticsExposure.LateHitIsStale | internal/cache/cache.go:44-50 | that store, the expiry, another pitch with its bump and an answered request make a run without any failure or loss that ends in a stale hit |
| AnalyticsExposure.ExpiringAboveZeroLeads | internal/cache/analytics.go:41-53 | the same from any reachable state with a live entry of a generation above zero whose counter expires within its lifetime |
| AnalyticsReader.Handler.GetAthleteAnalytics | internal/api/handlers_athletes.go:147-163 | the handler, with anything happening between its calls, answers what the run of the protocol serves this reader: the hit as found, the miss as computed and filed under the generation it first read, or the failure of the first query that fails |
| AnalyticsReader.Serve | internal/api/handlers_athletes.go:140-163 | a request in any reachable state is answered with a miss that lacks no row committed before it read the generation, or a hit within its lifetime that lacks none committed before its storing reader did, or a failure |
| AnalyticsReader.OthersKeepReader | internal/api/handlers_athletes.go:144-163 | nothing others do changes where a request stands |
| AnalyticsCache.Cache.Generation | internal/cache/analytics.go:11-28 | the generation read is the machine's step: zero when there is no counter or no answer |
| AnalyticsCache.Cache.InvalidateAthlete | internal/cache/analytics.go:41-53 | the bump is the machine's step for each way the two commands can turn out |
| AnalyticsCache.Cache.GetAnalytics | internal/cache/analytics.go:61-91 | the look-up is the machine's step, and what it returns is what the machine serves the reader |
| AnalyticsCache.Cache.SetAnalytics | internal/cache/analytics.go:94-113 | filing under the generation the caller took is the machine's step |
| OrderStatistics.MinorityCannotMove | internal/anomaly/detector.go:276-301 | with fewer than half the values outside an interval the median is inside it and the deviation at most its width |
| OrderStatistics.MinorityReplaced | internal/anomaly/detector.go:276-301 | replacing fewer than half the values by anything keeps both within the range of the untouched ones |
| OrderStatistics.BreakdownPoint | internal/anomaly/detector.go:276-289 | the median stays bounded under any k replacements if and only if they are fewer than half |
| OrderStatistics.DeviationBreakdownPoint | internal/anomaly/detector.go:291-301 | so does the deviation, or there is a single value |
| OrderStatistics.SortSorts | internal/anomaly/detector.go:280-281 | sorting orders the values and keeps each of them |
| Detector.Evaluate | internal/anomaly/detector.go:204-273 | a finding is reported exactly when the data suffices, the scale is positive and the distance reaches a threshold, with the grade, side and baseline it was judged by; which sessions count for it is told field by field by `Detector.ThinSessionsDoNotMatter` and its neighbours |
| Detector.CollectUsable | internal/anomaly/detector.go:209-217 | the first so many values of points with enough pitches, in order, which `Detector.ThickSessionsCount`, `ThinSessionsDoNotMatter` and `LaterSessionsDoNotMatter` pin down together |
| Detector.ComputeMAD | internal/anomaly/detector.go:291-301 | the array the loop fills gives the median of the absolute deviations |
| Detector.OutliersCannotMask | internal/anomaly/detector.go:204-246 | whatever a minority of the sessions are, an observation far enough outside the others' range is flagged high and on the right side, exactly when the scale is positive |
| Detector.OutliersCannotFake | internal/anomaly/detector.go:204-246 | nor can they have a value within the others' range reported when that range is narrower than the thresholds times the floor |
| Detector.ThinHistoryIsSilent | internal/anomaly/detector.go:199-220 | a window in which fewer sessions than the minimum have enough pitches and a value gives no finding, nor does an observation of too few pitches or without a value |
| Detector.ThinSessionsDoNotMatter | internal/anomaly/detector.go:209-217 | adding, leaving out or exchanging a session with too few pitches or without a value changes no verdict |
| Detector.LaterSessionsDoNotMatter | internal/anomaly/detector.go:214-216 | nor does anything behind the first windowSessions sessions that count |
| Detector.ThickSessionsCount | internal/anomaly/detector.go:209-217 | where every session has enough pitches and a value, each counts with its own value, in order |
| Detector.SteadyHistoryUsesTheFloor | internal/anomaly/detector.go:222-246 | sessions that all say the same are judged with the floor as the scale: reported exactly from the lower threshold times the floor on, high exactly from the high one on, on the side the value lies |
| Detector.TwoSessionsByHand | internal/anomaly/detector.go:222-246 | for two sessions without a floor the centre is their mean and the scale 1.4826 times half their distance |
| Detector.New | internal/anomaly/detector.go:177-197 | any configuration becomes one whose window and thresholds are positive, with 10, 5, 5, 3.0 and 2.5 for the missing ones, and a positive one is kept |
| Pagination.ListPitches | internal/api/handlers_pitches.go:256-281 | the append loop, the trimming and the cursor of the last row give the specified page |
| Pagination.PageIsPrefix | internal/httpx/pagination.go:94-101 | a page is ordered and holds only matching rows beyond the cursor; what it leaves out follows its last row, and it leaves nothing out unless it says so |
| Pagination.CursorCutsThere | internal/db/dbgen/pitches.sql.go:348-350 | a cursor made from a row selects exactly what the order puts after that row |
| Pagination.WalkIsOrdered | internal/api/handlers_pitches.go:246-281 | the rows of a walk over a growing table are strictly ordered and all match |
| Pagination.WalkIsComplete | internal/api/handlers_pitches.go:246-281 | a finished walk holds every matching row of the first request |
| Pagination.WalkEnds | internal/api/handlers_pitches.go:277-281 | a walk takes at most one request more than full pages fit into the final table |
| Pagination.WalkReturnsEachOnce | internal/api/handlers_pitches.go:246-281 | every matching row present since the first request is returned exactly once, whatever is inserted between requests |
| Pagination.PitcherWalk | internal/db/dbgen/pitches.sql.go:335-352 | a walk over a pitcher's list, told by the columns: newest first and by identifier at equal times, only rows of the pitcher that meet each condition given, a missing speed meeting none, and each such row there at the first request exactly once |
| Pagination.SessionWalk | internal/api/handlers_pitches.go:159-195 | the same for a session's list, by index upwards or downwards |
| Pagination.IdsKeyThePitcher | internal/httpx/pagination.go:32-34 | identifiers alone keep rows with equal timestamps apart |
| Pagination.IndexesKeyTheSession | internal/api/handlers_pitches.go:159-195 | unique indexes do the same for a session's list in either direction |
| Pagination.LimitTakesPrintedNumbers | internal/httpx/pagination.go:76-92 | of the printed integers, those from one to the maximum are taken as written and every other is refused |
| Breaker.CircuitBreaker.Do | internal/mlclient/breaker.go:131-142 | a call is attempted exactly when it is let through, and its outcome recorded after whatever other callers did meanwhile |
| Breaker.DoneIsCalls | internal/mlclient/breaker.go:131-142 | with nobody in between, an attempt is the sequential step the outage bounds are about |
| Breaker.CircuitBreaker.RecordFailure | internal/mlclient/breaker.go:166-185 | a failure counts, trips or reopens by the state it meets |
| Breaker.CircuitBreaker.RecordSuccess | internal/mlclient/breaker.go:145-160 | a success clears the failures and, half open, counts towards closing |
| Breaker.CircuitBreaker.constructor | internal/mlclient/breaker.go:82-96 | missing settings become 5 failures, 30 seconds and 2 successes, others are kept, and the breaker starts closed |
| Breaker.TripNeedsFailures | internal/mlclient/breaker.go:166-185 | under any interleaving a closed breaker trips only on a failure completing a threshold of failures with no success between |
| Breaker.ClosingExactly | internal/mlclient/breaker.go:145-185 | a half-open breaker closes with a call exactly when that call is the last of the required successes reported since it moved to half open, and reopens exactly when the call is a failure |
| Breaker.ClosingNeedsSuccesses | internal/mlclient/breaker.go:145-160 | every closing has such a move before it, with exactly the required number of successes and no failure since |
| Breaker.NothingAdmittedWhileOpen | internal/mlclient/breaker.go:117-128 | nothing is let through within the open duration of a trip |
| Breaker.OutageAttempts | internal/mlclient/breaker.go:104-185 | in a sequential outage of length T at most the threshold plus floor(T / open duration) calls are attempted |
| Breaker.OutageBoundIsAttained | internal/mlclient/breaker.go:104-185 | that bound is reached for every number of attempts |
| Breaker.FailuresTrip | internal/mlclient/breaker.go:175-180 | an unbroken row of failures trips a closed breaker at the threshold and not before |
| Breaker.SuccessesClose | internal/mlclient/breaker.go:150-156 | after the open duration exactly the required number of successful calls closes it |
| Limiter.LoginLimiter.Allow | internal/auth/ratelimit.go:80-87 | the remote count decides when there is one, allowed up to the limit and with the rest remaining, and the local window otherwise |
| Limiter.LoginLimiter.Sweep | internal/auth/ratelimit.go:104-110 | exactly the expired windows are deleted |
| Limiter.LoginLimiter.Reset | internal/auth/ratelimit.go:117-124 | a successful login removes its key's window; what that gives is told by `Limiter.ResetGivesBack` and `Limiter.ResetConcernsOneKey` |
| Limiter.ResetGivesBack | internal/auth/ratelimit.go:115-124 | after any operations and a reset of a key, each of the next `limit` attempts on it, whenever they come, is allowed, with at least what they leave over remaining |
| Limiter.ResetConcernsOneKey | internal/auth/ratelimit.go:117-124 | with monotone time every answer for another key equals that of the run without the reset |
| Limiter.KeysAreIndependent | internal/auth/ratelimit.go:89-113 | with monotone time an answer depends on the operations on its own key only |
| Limiter.WindowIsExact | internal/auth/ratelimit.go:89-113 | within five minutes of a window's first attempt, an attempt is allowed if and only if fewer than the limit came before it in the window, and is told exactly what remains |
| Limiter.WindowEnds | internal/auth/ratelimit.go:95-100 | the first attempt after that starts a new window |
| Limiter.SweepIsUnobservable | internal/auth/ratelimit.go:89-113 | with monotone time no answer differs from that of a map never swept |
| Limiter.AttemptsPerWindow | internal/auth/ratelimit.go:89-113 | between resets at most 2 * limit - 1 attempts on a key are allowed in any interval as long as a window |
| Limiter.BoundIsAttained | internal/auth/ratelimit.go:89-113 | that many are possible for every limit |
| MetricsThrottle.Throttle.ShouldSend | internal/api/websocket.go:274-296 | the answer and the map afterwards, sweep included |
| MetricsThrottle.SweepIsUnobservable | internal/api/websocket.go:285-294 | the sweep changes no answer |
| MetricsThrottle.SendsAreSpaced | internal/api/websocket.go:274-296 | two sends for one session are at least the interval apart |
| MetricsThrottle.SendsExactly | internal/api/websocket.go:274-296 | with monotone time a session is sent if and only if it was not sent within the last second |
| NullRatio.NullRatioTracker.Observe | ml/service/metrics.py:121-141 | the loops over names and rows count every known feature, and a full window is published and halved |
| NullRatio.NullRatioTracker.Flush | ml/service/metrics.py:160-162 | flushing publishes the shares of the window so far and keeps its counts |
| NullRatio.RunKeepsCounters | ml/service/metrics.py:121-158 | in every run missing is at most seen and seen at most the count, and with batches no larger than the window the count stays below it |
| NullRatio.CountStaysBelowWindow | ml/service/metrics.py:138-158 | after an observation the count is below the window exactly when what was carried over and the batch are below two windows |
| NullRatio.KnownFromTheStart | ml/service/metrics.py:125-136 | a feature known from the first batch on has been looked for in every row counted |
| NullRatio.AbsenceShows | ml/service/metrics.py:143-158 | absent for k halvings, such a feature is published at no less than 1 - (p / 2^k + 1) / window |
| NullRatio.FirstWindowIsExact | ml/service/metrics.py:121-158 | what is first published of a feature that was there from the first batch on is the exact share of the rows so far in which it is null or not there |
| Tape.ReadTape | internal/replay/tape.go:85-147 | reading fails at the first bad line, which it names, or else when the scanner gave up, or else on an empty tape, and in no other case; otherwise the outings are those the lines describe |
| Tape.TapeKeepsAll | internal/replay/tape.go:96-146 | a tape holds exactly the records of its lines |
| Tape.OutingsAreSorted | internal/replay/tape.go:132-146 | one outing per session, its pitches ordered by at-bat and then by pitch number, equal ones in the order of the lines, headed by its first line |
| Tape.FirstSeenInOrder | internal/replay/tape.go:111-134 | of two outings the earlier on the tape has begun somewhere in the lines where the later one has not |
| Tape.SortIsStable | internal/replay/tape.go:138-143 | the sort orders by key and keeps the order within each key |
| Tape.Filter | internal/replay/tape.go:152-168 | the wanted outings in order, at most so many |
| Tape.NoFilterKeepsAll | internal/replay/tape.go:149-151 | without criteria filtering is the identity |
| Tape.PrintedPitcherPicks | internal/replay/tape.go:158-161 | a printed identifier, negative ones included, picks the outings of that pitcher only, and a game reference those of the game |
| Tape.PitchCount | internal/replay/tape.go:62-68 | the count is that of all records on the tape |
| ReplayClock.Clock.Next | internal/replay/timing.go:87-124 | the first pitch is at the start and each other one a pause after the one before |
| ReplayClock.PausesAreBounded | internal/replay/timing.go:87-124 | over any stretch of an outing times advance by 17 to 179 seconds a pitch |
| ReplayClock.PausesTellBreaks | internal/replay/timing.go:95-113 | a pause alone tells whether the batter stayed, a new one came in or the inning changed |
| ReplayClock.PausesAddUp | internal/replay/timing.go:87-124 | each pause in full: 23 or 19 seconds with and without runners, two more at two strikes, 150 for a new inning or else 25 for a new batter, and a draw between minus two and four seconds |
| ReplayClock.OutingBegins | internal/replay/timing.go:66-82 | an outing emits its own pitches in order under its own identifier, the first at ten past seven of its day and twenty minutes later for every inning before |
| ReplayClock.OutingGoesOn | internal/replay/simulator.go:114-125 | each further pitch comes a pause after the one before, drawn with the outing's own seed |
| ReplayClock.Simulator.Run | internal/replay/simulator.go:102-152 | the outings are emitted in order, or a beginning of that when the emitter fails; the count and the summed span are right |
| ReplayClock.Simulator.RunSession | internal/replay/simulator.go:114-147 | one outing is emitted with its own clock and its span is last minus first |
| ReplayClock.DatedOutingsAreIndependent | internal/replay/simulator.go:111-116 | a dated outing has the same events and times on any tape that holds it |
| ReplayClock.SpanIsBounded | internal/replay/simulator.go:86-93 | the summed span is 17 to 179 seconds for each pause |
| PasswordHash.DecodeOfFormat | internal/auth/password.go:49-126 | decoding what is printed recovers all in-range parameters and every salt and key |
| PasswordHash.DecodedFieldsArePrinted | internal/auth/password.go:91-126 | the decoder accepts only six fields with the name and version of the algorithm, and only printed salts and keys, give or take line breaks |
| PasswordHash.WrittenForm | internal/auth/password.go:58-66 | for the parameters in use, the printed string has the fields argon2id, v=19 and m=65536,t=3,p=4 |
| PasswordHash.VerifyHashed | internal/auth/password.go:70-88 | another password passes exactly when it derives the same key under the stored parameters |
| PasswordHash.SplitOfJoin | internal/auth/password.go:91-95 | splitting undoes joining when no part holds the separator |
| PasswordHash.ScanParamsField | internal/auth/password.go:106-112 | the printed parameters are scanned back |
| Base64.DecodeExactly | internal/auth/password.go:114-122 | a string decodes to given bytes if and only if, line breaks aside, it is their encoding |
| Base64.Examples | internal/auth/password.go:62-66 | the examples of RFC 4648, section 10, without padding |
| Base64.DecodeOfEncode | internal/auth/password.go:62-66 | decoding undoes encoding for every byte sequence |
| Decimal.AtoiOfPrint | internal/kafka/consumer.go:403-406 | reading undoes printing for every natural number |

## Left out

- Consumer.Worker.Persist: the athletes, the device, the measurement and the session's columns written in the same transaction are not modelled, nor that two transactions can deadlock on athletes, which is one of the failures of the operation; of the predictions, the pitching score only.
- Consumer.Worker.UpdateCache: the InvalidateAthlete call that follows is the bump of `AnalyticsCache`, not a step of this machine.
- Consumer.Worker.HandlePitchRaw: the features sent to inference and the rest of what it answers are not modelled.
- LiveCounters.ExecuteKeepsAgreement: the count, batter and time of the last pitch, which the same pipeline sets, are not modelled.
- IngestScores.LiveScoresExactly: the rounding of a stored score to a narrower number is not modelled.
- Wire.ReplayCountRoundTrip: the 64-bit range of parsed integers is not modelled.
- PasswordHash.DecodeOfFormat: the scanner's skipping of white space before numbers is not modelled; printed strings hold none.
- Detector.Evaluate: floating-point rounding and infinities are not modelled; a value that is not a number is.
- Limiter.LoginLimiter.Reset: forgetting the key in Redis as well is not modelled.
- Limiter.AttemptsPerWindow: the local counter only; the shared Redis counter is a parameter, and time is taken in the order of the calls.
- ReplayClock.DatedOutingsAreIndependent: the hash that spreads seeds and the random generator are parameters; overflow of the summed seed is not modelled.
- AnalyticsFreshness.HitIsFresh: the part of a payload computed from pitches; anomaly counts and session fields do not bump the generation.
- Watch.ReportsAreTheLosses: reconnecting and the client's own pauses are not modelled; undecodable frames are part of `Watch.Observe`.
- Kafka, Redis, PostgreSQL, HTTP and WebSocket libraries: only the steps the code relies on (append, fetch, commit, insert or do nothing, increment, expiry, bounded channel).
- What the Kafka writer retries inside one call: publish calls are counted, not the contents of a topic.
- Argon2, the random salt and the constant-time comparison: the key derivation is a function parameter.
- JSON encoding, taken as lossless; cursors are values, not tokens.
- The pauses between retries and fetches; starting a consumer from the latest offset.
- Connection slots per address, which the path for a stopped hub never gives back, and the slow-consumer gauge, which a removed client never lowers.
- A single probe while the breaker is half open: the code does not limit concurrent probes.
- A bound on dead letters over many drains: letters are never removed and every drain reads from the start.
- Paging order of athletes and sessions, health, metrics wiring, configuration, the web client and the training scripts.

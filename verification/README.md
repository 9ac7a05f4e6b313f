# A verified model of the theme-park ride pipeline

This project models, in Dafny, the behaviour of a backend that takes wristband
scans at theme-park rides, stores them reliably, and mints attendance NFTs from
them, and proves what its parts promise together. Redis, Postgres, Kafka, the
pinning provider and the Sui chain are in-memory stores. A call to one of them
has one of three outcomes: done, failed without effect, or applied but reported
as failed; which one is an input, so every theorem is about every pattern of
failures unless it names the ones it excludes.

Verify with `dafny verify dfyconfig.toml`.

## The parts

- **Reliable ingestion** (`ScanStores`, `Ingestion`, `IngestionFaults`,
  `Pipeline`, `HandlerEnds`, `DrainPass`, `DrainTally`, `Consumer`). The Kafka
  worker pool, the scan handler and the outbox drain are one state machine of
  small steps: any number of workers and drain passes, markers that expire at
  any moment, messages refetched while uncommitted. The inductive invariant
  gives no silent loss, marker soundness and cache agreement over every run.
  `Pipeline` and `Consumer` hold the code as classes whose methods equal that
  machine driven by one worker; what each call leaves in every store and reports
  is stated for every pattern of failures. The assumptions are shown to be
  needed: each single fault has a run that loses a scan.
- **Wristbands at the gate** (`RedisStore`, `Gate`, `GateReplies`, `Provenance`,
  `GateServices`, `EndToEnd`). The forward and reverse index, the QR, bind,
  check, reset and scan calls over two stores, with clocks and expiry, and when
  each reply is given. `EndToEnd` joins the gate to ingestion: what it publishes
  is what the table ends up holding.
- **QR tokens** (`Decimals`, `QrToken`, `QrLifetime`, `GateTokens`). Payload
  format under an ideal MAC, and the exact time budget of single use, on a
  machine of concurrent binds and on the runs of the gate itself.
- **Participants, day resolution and minting** (`Repository`, `Vouchers`,
  `Delegations`, `VoucherService`, `DayResolution`, `DayOutcomes`,
  `AttendanceNft`, `BatchMint`, `MintLog`, `DemoRuns`, `MintDriver`,
  `MintSelection`, `DemoHistory`, `DemoRemints`, `DemoSeeding`). Delegation and
  the guardian walk, the end-of-day pass with its ledger, the Move batch mint,
  mint-log attribution, the mint service's unguarded driver and the demo's
  guarded one, over whole histories in which seeding, sign-ups, rides and resets
  come between the runs.
- **Counters and caches** (`CidCache`, `CidAnswers`, `LoadGen`,
  `LoadGenReports`, `LoadGenProducer`, `Percentile`, `DeliveryCheck`). The
  double-checked pin-once cache, the load generator's pipeline, and the delivery
  verifier.

## Where code and documentation disagree

The model follows the code. Each point below is a theorem.

- A failed message is not "left uncommitted, so reprocessed on restart"
  (`internal/kafka/consumer.go:112-115`): a group offset is cumulative and the
  worker carries on, so a later commit skips it. A step breaks the promise exactly
  when it commits a message past an uncommitted one (`Consumer.OffsetBreaksExact`),
  and with every retry limit there is a run that does (`Consumer.FailureIsSkipped`).
  The protocol theorems treat a commit as a mark on one message.
- "Zero loss" (`internal/pipeline/handler.go:57-60`) needs no crash inside the
  handler, a marker clear that takes effect, and a claim whose reply arrives: the
  compensation is registered only after the claim's error return
  (`IngestionFaults.CrashLoses`, `FailedClearLoses`, `LostClaimReplyLoses`). The
  clear that fails needs no outage: it is called with the handler's own context
  (`internal/pipeline/handler.go:74-80`), so an ordinary shutdown in mid-handler
  makes insert and clear fail together, which is the run of `FailedClearLoses`.
- "Zero loss" also needs trace ids that determine their rides: messages reusing a
  trace id, as the load generator sends, can leave a stored row whose ride is
  counted nowhere (`IngestionFaults.NoLossExact`).
- `DrainOutbox` can remove one row more than it counts (`Pipeline.UncountedRow`):
  exactly when the first delete that reports failure had taken effect
  (`Pipeline.DrainCounts`). Two passes at a time can count one row twice
  (`DrainTally.TwoDrainsRecount`); one drain worker never does
  (`DrainTally.OneDrainCounts`).
- `SetBindingStatus` is a read and a write; between them a reset can leave a
  binding without reverse key, or one that never expires (`RedisStore.WriteHalfExact`,
  `RedisStore.NoTtlIsForever`).
- A reset that fails to clear the cached decision lets a stale allow be replayed
  (`Gate.GraceExact`).
- A QR token's age is compared in whole seconds and in absolute value: a token
  verifies for up to R + 1 seconds, not R, and one stamped ahead of the clock
  verifies too (`QrToken.GenerateThenVerify`); the used-token key must outlive
  that second as well (`QrLifetime.SingleUseExact`).
- "Issues no duplicate tx" (`internal/minter/batch_mint.go:62-65`) is not true of
  `Run`, which never looks at the mint log: running a batch twice repeats a
  transaction exactly when some entry sends both times (`BatchMint.RunTwiceExact`).
  The mint service calls it unguarded (`cmd/minter/main.go:166-218`) and repeats a
  transaction exactly when a mint-ready participant whose entry sends has one
  already (`MintDriver.RunDayExact`); one call after a run of the demo, or after
  another call, does (`DemoRemints.RunDayRemints`).
- The demo driver has a guard, which fails when two family members share a ride
  (`DemoRemints.SharedRidesRemint`) or the demo is reset between two runs
  (`DemoRemints.ResetRemints`). One mint escapes it exactly when its transaction
  reports failure or none of its records wins a row (`DemoRuns.RecognisedExact`), a
  reset exactly when it reaches the mint logs after a transaction
  (`DemoHistory.ResetExact`).
- "The dependent's dedicated custodial wallet" (`internal/voucher/voucher.go:197-199`)
  is dedicated only as delegation provisions it: the demo's seeding gives every
  dependent of a guardian the guardian's own address
  (`Vouchers.SeededSiblingsShare`, `Vouchers.CustodialWalletsExact`).
- The Sui client returns a digest even when the Move call aborted
  (`internal/sui/client.go`), so a result may say minted with nothing minted
  (`BatchMint.MintCorrespondence`).
- "Only ~20 pins total" (`internal/storage/cache.go:39`) holds exactly when no
  attempt failed after pinning its artwork (`CidCache.PinBudget`); assets are
  cached by ride only, so the first date's assets serve every date.
- The load generator's duplicate count includes events flagged before there was
  an id to repeat (`LoadGenReports.DuplicatesExact`), and with no producers its
  counters do not add up (`LoadGen.ShutdownExact`).
- The delivery verifier stops at the last unseen id and so misses later
  duplicates (`DeliveryCheck.EarlyStopExact`).

## Model

| member | source | states |
|---|---|---|
| `Ingestion.InitHolds` | internal/kafka/consumer.go:102-119 | a freshly started pool satisfies the protocol invariant |
| `Ingestion.InvStays` | internal/pipeline/handler.go:61-113 | every fault-free step of any worker, drain pass, marker expiry or refetch keeps the invariant: locks on messages, tables, live markers and the accounting of every trace |
| `Ingestion.NoScanIsLost` | internal/kafka/consumer.go:102-185 | in every interleaving without the four named faults, for logs whose trace ids determine rides, each well-formed trace is fully processed, dead-lettered, or still carried by an uncommitted message; live markers are justified, sets hold stored rides only, and every stored row is accounted for |
| `Ingestion.QuietScan` | internal/kafka/consumer.go:145-185 | once nothing is in flight, uncommitted, parked or dead-lettered, every scan has a stored row of its ride and the ride is counted |
| `Ingestion.QuietAgrees` | internal/pipeline/handler.go:82-149 | and then the ride sets are exactly the projection of the stored rows, and exactly the rides the log carried |
| `Ingestion.MarkersExact` | internal/pipeline/handler.go:61-113 | one step keeps "a live marker means processed or claimer in flight" if and only if it is not one of the stranding steps (crash, uncleared marker, lost claim reply) on an unprocessed trace nobody else claims |
| `Ingestion.DropIsSafe` | internal/pipeline/handler.go:63-70 | dropping a duplicate when the marker is live never drops an unprocessed, unclaimed trace |
| `Ingestion.ProcessedStays` | internal/pipeline/handler.go:127-149 | no step undoes the processing of a trace, not even a drain pass interrupted between the set add and the delete |
| `Ingestion.StrandingIsFaulty` | internal/pipeline/handler.go:74-80 | only the three faults the protocol assumes away can strand a marker |
| `Ingestion.StoresGrow` | internal/pipeline/handler.go:84-109 | rows and ride sets only grow and rows keep their contents |
| `Ingestion.DrainStays` | internal/pipeline/handler.go:127-149 | rows a drain pass has listed keep restating a stored row while other workers run |
| `Ingestion.SettledIsProcessed` | internal/pipeline/handler.go:93-112 | a handler whose aggregation or parking succeeds has left its trace processed |
| `Ingestion.SafeStays` | internal/kafka/consumer.go:148-185 | from a state with the invariant, no step makes a trace that is processed, dead-lettered or carried anything less |
| `IngestionFaults.RedeliveryDrops` | internal/pipeline/handler.go:63-70 | a redelivered trace with a stranded marker is dropped as a duplicate and committed |
| `IngestionFaults.CrashLoses` | internal/pipeline/handler.go:63-91 | a crash between claim and insert, alone, loses the scan: committed, never stored, never dead-lettered |
| `IngestionFaults.FailedClearLoses` | internal/pipeline/handler.go:74-80 | one failed marker clear after a failed insert, alone, loses the scan |
| `IngestionFaults.LostClaimReplyLoses` | internal/pipeline/handler.go:63-66 | a claim that took effect but whose reply was lost, alone, loses the scan, because the compensation is not armed yet |
| `IngestionFaults.SharedMessageLoses` | internal/kafka/consumer.go:102-143 | two workers holding one message, alone, lose the scan |
| `IngestionFaults.CacheAgreementExact` | internal/pipeline/handler.go:82-109 | for a given log, every counted ride is backed by a stored row in all runs if and only if equal trace ids mean equal rides |
| `IngestionFaults.NoLossExact` | internal/kafka/consumer.go:102-185 | for a given log, no fault-free run of any pool loses a scan if and only if equal trace ids mean equal rides |
| `IngestionFaults.ClashLoses` | internal/pipeline/handler.go:82-109 | with two messages of one trace and different rides, a fault-free run ends with a stored row whose ride is counted nowhere and nothing left to redeliver |
| `IngestionFaults.LossExact` | internal/kafka/consumer.go:162-193 | one step loses an accounted trace if and only if it commits the last message carrying it while it is neither processed nor dead-lettered |
| `IngestionFaults.AccountedStays` | internal/kafka/consumer.go:187-193 | every other step keeps an accounted trace accounted |
| `Pipeline.HandlerRefines` | internal/pipeline/handler.go:61-113 | the sequential handler is a run of the protocol that moves only its own worker |
| `Pipeline.HandlerOutcome` | internal/pipeline/handler.go:61-113 | exactly when a handler call ends as duplicate, as handled or as failed, and what it leaves in each case, including when the marker survives a failure |
| `HandlerEnds.HandlerExact` | internal/pipeline/handler.go:61-113 | for every pattern of outcomes, what one handler call leaves in each store: the row written once and only by whoever claimed the trace, the ride added only after it, parked only when it could not be added, the marker kept unless an error was compensated, and other traces untouched |
| `Pipeline.DrainRefines` | internal/pipeline/handler.go:127-149 | a drain pass is a run of the protocol that moves only its own drain worker |
| `Pipeline.DrainIsPlain` | internal/pipeline/handler.go:133-144 | driving the protocol's drain phases row by row gives the stores a plain loop over the rows gives |
| `Pipeline.DrainCounts` | internal/pipeline/handler.go:132-148 | of a pass with nothing in between its calls: the rows it removes are the ones it counts, plus one that it does not count if and only if the first delete that is reached and reports failure had taken effect; then the pass reports an error |
| `Pipeline.UncountedRow` | internal/pipeline/handler.go:133-144 | such a pass: the only parked row is replayed and gone, and the returned count is 0 with an error |
| `DrainPass.PassExact` | internal/pipeline/handler.go:127-149 | for every pattern of outcomes, what a pass leaves: each listed row it reaches is gone, or has one attempt more, or is untouched, by its own add, bump and delete; no other row changes and none is parked; the ride sets gain exactly the rides whose add took effect |
| `DrainPass.PassAnswers` | internal/pipeline/handler.go:133-148 | a pass reports an error if and only if a delete it reaches does, and counts the rows it deleted without error |
| `DrainPass.RowFate` | internal/pipeline/handler.go:133-143 | the fate of one listed row |
| `DrainTally.CountsBalance` | internal/pipeline/handler.go:127-149 | over every run of any number of drain workers, with handlers parking rows in between: rows parked = rows removed + rows still parked, and the passes together count what they removed if and only if as many rows were removed by deletes that reported failure as were counted twice |
| `DrainTally.OneDrainCounts` | cmd/consumer/main.go:76-90 | with one drain worker, in every interleaving with the handlers, rows removed = rows counted + rows whose delete took effect but reported failure |
| `DrainTally.ListedSteps` | internal/pipeline/handler.go:128-133 | because every step of the protocol keeps what a lone drain worker has listed parked until it deletes it itself |
| `DrainTally.TwoDrainsRecount` | internal/postgres/repository.go:327-333 | with two drain workers a run without failures in the drains counts one parked row twice, because deleting a missing row is no error |
| `Pipeline.HealthyPass` | internal/pipeline/handler.go:127-149 | with healthy stores a pass over the oldest n rows removes exactly those and counts exactly their rides |
| `Pipeline.PassesAre` | internal/pipeline/handler.go:127-149 | repeated healthy passes remove prefix after prefix of the outbox and count their rides |
| `Pipeline.DrainTerminates` | internal/pipeline/handler.go:127-149 | with batch b > 0 and nothing newly parked, n rows are gone after p passes if and only if p >= ceil(n / b), and then every parked ride is counted |
| `Pipeline.OutboxStaysUnique` | internal/postgres/repository.go:296-305 | no trace is ever parked twice |
| `Pipeline.ScanStore.IsDuplicate` | internal/redis/client.go:88-95 | claims the marker if absent; a failed call may or may not have claimed it |
| `Pipeline.ScanStore.ClearDedup` | internal/redis/client.go:238-243 | removes the marker when the call takes effect |
| `Pipeline.ScanStore.AddRideToUserSet` | internal/redis/client.go:114-120 | adds the ride to the user's daily set, idempotently |
| `Pipeline.ScanStore.InsertScan` | internal/pipeline/handler.go:84-91 | inserts the row unless its trace id is stored already |
| `Pipeline.ScanStore.InsertOutbox` | internal/postgres/repository.go:296-305 | parks the ride unless its trace id is parked already |
| `Pipeline.ScanStore.ListPendingOutbox` | internal/postgres/repository.go:308-315 | the oldest `limit` parked rows |
| `Pipeline.ScanStore.BumpOutboxAttempts` | internal/postgres/repository.go:318-325 | counts one more attempt on a parked row and changes nothing else |
| `Pipeline.ScanStore.DeleteOutbox` | internal/postgres/repository.go:328-333 | removes a parked row |
| `Pipeline.ScanHandler.Handle` | internal/pipeline/handler.go:61-113 | changes the stores, and returns an error, exactly as the protocol's handler phases say for every pattern of call outcomes |
| `Pipeline.ScanHandler.Process` | internal/pipeline/handler.go:82-113 | the part after the claim, before compensation |
| `Pipeline.ScanHandler.DrainOutbox` | internal/pipeline/handler.go:127-149 | lists, replays, bumps and deletes exactly as the protocol's drain phases say, and returns their count |
| `Consumer.AttemptUnfolds` | internal/kafka/consumer.go:162-184 | one attempt commits, retries, gives up on cancellation or dead-letters, exactly by the handler's result and the attempt counter |
| `Consumer.BuryRefines` | internal/kafka/consumer.go:175-179 | dead-lettering then committing is a run of the protocol |
| `Consumer.AttemptRefines` | internal/kafka/consumer.go:162-184 | the retry loop, from any attempt, is a run of the protocol, fault-free when its calls are |
| `Consumer.MessageKeepsInv` | internal/kafka/consumer.go:148-185 | processing one message keeps the protocol invariant, hence no silent loss |
| `Consumer.ExhaustedIsBuried` | internal/kafka/consumer.go:162-179 | while every claim fails, retries end in the dead letter, never in a silent commit: the whole end state, in which the stores are untouched and the message is committed only if the dead letter was written |
| `Consumer.PoisonEnds` | internal/kafka/consumer.go:148-160 | a message that does not parse never reaches the handler: dead-lettered if that write takes effect, committed if it succeeds and the commit takes effect, and nothing else changes |
| `Consumer.ScanEnds` | internal/kafka/consumer.go:162-184 | the whole end of a scan by its last attempt: committed after a success, left alone after a cancelled retry, dead-lettered and then committed when the retries are used up |
| `Consumer.ReplyExact` | internal/kafka/consumer.go:162-184 | and what the worker reports: that attempt's number, and an error if and only if the commit, the dead letter or a retry did not go through |
| `Consumer.SomeAttemptIsLast` | internal/kafka/consumer.go:162-184 | there is such an attempt, within the retry limit |
| `Consumer.KafkaConsumer.ProcessAndCommit` | internal/kafka/consumer.go:148-185 | equals the driven protocol, with its number of attempts and its error: for a poison message none, and an error if and only if the dead letter or the commit failed; for a scan those of its last attempt, which ReplyExact spells out; no error means committed |
| `Consumer.KafkaConsumer.Retry` | internal/kafka/consumer.go:162-184 | the retry loop: the driven protocol from the first attempt, and its reply |
| `Consumer.KafkaConsumer.Bury` | internal/kafka/consumer.go:207-221 | dead letter first, commit only if that succeeded; an error if and only if either failed |
| `Consumer.KafkaConsumer.Commit` | internal/kafka/consumer.go:188-193 | marks the message when the commit takes effect |
| `Consumer.KafkaConsumer.BackoffFor` | internal/kafka/consumer.go:195-203 | the documented doubling, base times two to the attempt, if and only if that fits 64 bits, for a base of either sign; otherwise the value it wraps to |
| `Consumer.KafkaConsumer.constructor` | internal/kafka/consumer.go:47-78 | defaults for a retry limit or backoff that is not positive; the backoff in nanoseconds is the configured one if and only if it fits 64 bits |
| `Consumer.OffsetBreaksExact` | internal/kafka/consumer.go:110-116 | one step of the machine breaks "left uncommitted, so reprocessed on restart" if and only if it commits a message while a lower one is uncommitted |
| `Consumer.InOrderRestarts` | internal/kafka/consumer.go:187-193 | over every run that never does so, a restart from the group offset redelivers exactly the uncommitted messages |
| `Consumer.FailureIsSkipped` | internal/kafka/consumer.go:110-116 | the consumer does commit past a failure, whatever its retry limit: a fault-free run of one worker after which the group offset skips a scan that is neither processed nor dead-lettered |
| `RedisStore.LookupIsSearch` | internal/redis/client.go:182-191 | the lookup through the reverse index returns a binding of the ticket exactly when a search of all bindings would, and that one |
| `RedisStore.BindKeepsBijection` | internal/redis/client.go:35-43 | the bind script keeps the two indexes mutually inverse with equal expiries |
| `RedisStore.UnbindKeepsBijection` | internal/redis/client.go:51-61 | so does the delete script |
| `RedisStore.TickKeepsBijection` | internal/redis/client.go:35-43 | so does time: both keys of a pair die together |
| `RedisStore.WriteHalfExact` | internal/redis/client.go:195-213 | the write half of a status update, run against a changed store, keeps the bijection if and only if the wristband still has a live binding of the same ticket |
| `RedisStore.SetStatusKeepsBijection` | internal/redis/client.go:195-213 | run with nothing in between, a status update keeps it |
| `RedisStore.NoTtlIsForever` | internal/redis/client.go:209-211 | written after the key died, the binding comes back without a TTL and never expires |
| `RedisStore.IndexBijection` | internal/redis/client.go:35-61 | over every run of binds, promotions, unbinds and expiries the indexes stay inverse and the reverse lookup finds the unique holder |
| `RedisStore.RedisClient.BindWristband` | internal/redis/client.go:137-163 | sets both keys, or reports which side is taken and changes nothing |
| `RedisStore.RedisClient.DeleteBinding` | internal/redis/client.go:216-221 | drops the wristband key and the ticket key its value names |
| `RedisStore.RedisClient.SetBindingStatus` | internal/redis/client.go:195-213 | read then write keeping the TTL; not found when unbound |
| `RedisStore.RedisClient.MarkQRUsed` | internal/redis/client.go:225-234 | true exactly when the token was unused, which it then is no more |
| `RedisStore.RedisClient.SetWristbandGrace` | internal/redis/client.go:248-251 | caches the decision for the grace window |
| `RedisStore.RedisClient.ClearWristbandGrace` | internal/redis/client.go:266-269 | drops the cached decision |
| `Gate.StepKeepsBijection` | internal/gate/binding.go:102-237 | every gate call, with any pattern of call failures, keeps the wristband index and its reverse in step |
| `Gate.OneHolder` | internal/redis/client.go:35-43 | two wristbands never hold one ticket |
| `Gate.CouplingExact` | internal/gate/binding.go:102-237 | one call keeps "BINDING means PENDING_ENTRY, BOUND means ACTIVE or USED" if and only if it is not a bind or promotion whose ticket update was skipped or lost |
| `Gate.BindOwnCoupled` | internal/gate/binding.go:134-150 | a bind uncouples its own wristband exactly in that case |
| `Gate.BindOthersCoupled` | internal/gate/binding.go:102-150 | a bind leaves every other wristband coupled; this rests on the bijection |
| `Gate.CheckCoupling` | internal/gate/binding.go:156-210 | the same for a check, including one that promotes |
| `Gate.ResetCoupling` | internal/gate/binding.go:217-237 | the same for a reset |
| `Gate.StoresStayCoupled` | internal/gate/binding.go:102-237 | over every run whose ticket writes succeed, the two stores stay coupled in every state |
| `Gate.ReplayIsFaithful` | internal/gate/binding.go:156-210 | over any calls after a check whose decision reached the cache, until the grace window ends or its wristband is reset, every further check returns that decision and changes no state, whatever it would have decided |
| `Gate.EntryPersists` | internal/gate/binding.go:156-172 | the cached decision of a wristband survives every call but its own reset, until its time is up |
| `Gate.GraceExact` | internal/gate/binding.go:217-237 | one call keeps "a cached allow means BOUND" if and only if it is not a reset that removes the binding but fails to clear the entry |
| `Gate.AllowedMeansBound` | internal/gate/binding.go:156-237 | over every run whose resets clear, a replayed allow means the binding is BOUND for as long as it has not expired |
| `Gate.SameElsewhere` | internal/gate/binding.go:102-237 | a call on one wristband changes neither the binding nor the cached decision of another |
| `GateReplies.BindAnswers` | internal/gate/binding.go:102-150 | when a bind gives which reply: invalid token, ticket missing, unowned, used or expired, token replayed, ticket or wristband already bound, store error, bound |
| `GateReplies.BoundMeans` | internal/gate/binding.go:133-149 | "bound" means both keys are there for the owner of a bindable ticket until the binding expires, and the ticket is pending entry if that write took effect |
| `GateReplies.RefusedBinds` | internal/gate/binding.go:102-139 | a refused bind changes no binding and no ticket |
| `GateReplies.BindBurns` | internal/gate/binding.go:115-131 | a bind that gets as far as its unused token, with that write in effect, leaves it used for its whole lifetime whatever else comes of the bind; any other bind leaves all tokens alone |
| `GateReplies.CheckAnswers` | internal/gate/binding.go:156-211 | when a check gives which reply: its own outcome and reason, a cached decision, not bound, store error |
| `GateReplies.CheckMeans` | internal/gate/binding.go:191-211 | a fresh allow means the same binding is now BOUND and its ticket active if that write took effect; a denial, a replay or a missing binding changes no binding and no ticket |
| `GateReplies.CheckCaches` | internal/gate/binding.go:200-203 | a deciding check caches its own decision for exactly the grace window; any other check leaves all cached decisions alone |
| `GateReplies.ReplaysAgree` | internal/gate/binding.go:156-172 | until the window ends or the wristband is reset, every later check gives the fresh answer again, marked as a replay |
| `GateReplies.ResetAnswers` | internal/gate/binding.go:217-237 | when a reset gives which reply; "unbound" names the ticket that was bound and means both keys are gone, the cached decision too if that delete took effect, and the ticket is claimed if that write did |
| `GateReplies.ResetFrees` | internal/gate/binding.go:214-237 | after it wristband and ticket can be bound again |
| `GateReplies.ScanAnswers` | internal/gate/ride_scan.go:55-83 | when a ride scan gives which reply; it publishes exactly from a BOUND binding, one event with its owner and ticket and the scan's ride, trace and time |
| `GateReplies.ScanRedeems` | internal/gate/ride_scan.go:78-99 | a recorded scan turns an active ticket used if that write takes effect; no other ticket and no other status changes |
| `GateReplies.BindScriptAnswers` | internal/redis/client.go:35-43 | the bind script refuses exactly a ticket some wristband holds, and otherwise exactly a wristband that holds some ticket |
| `Provenance.CurrentIsWitnessed` | internal/gate/binding.go:102-237 | the standing a history gives a wristband points at the bind and the passing check that made it |
| `Provenance.TrackedStays` | internal/gate/ride_scan.go:55-83 | Redis holds, for every live binding, exactly what the history of binds, passes and resets says |
| `Provenance.ScanIsBacked` | internal/gate/ride_scan.go:55-78 | a scan is published only from a binding the history backs |
| `Provenance.OwnersStay` | internal/gate/binding.go:116-134 | every bind carries the email of the ticket's owner |
| `Provenance.EveryScanIsJustified` | internal/gate/ride_scan.go:55-83 | over every run, each published event carries the ticket and owner email of a bind of that wristband, followed by a passing check, with no reset, rebind or expiry before the scan |
| `EndToEnd.EveryRowIsJustified` | internal/gate/ride_scan.go:52-83 | for every run of the gate with fresh trace ids and every fault-free interleaving of ingestion over messages it published, in any order and number: no scan is lost, and every stored row is a scan of a wristband bound by the ticket's owner, passed, and neither reset, rebound nor expired before it |
| `EndToEnd.EveryScanArrives` | internal/pipeline/handler.go:55-113 | and once everything published is carried and nothing is left to do, the table holds exactly the published scans, field by field, and the daily sets exactly their rides |
| `EndToEnd.TracesDetermine` | internal/gate/ride_scan.go:67-73 | a log of published scans with distinct traces meets the one assumption ingestion makes of its log |
| `EndToEnd.PublishedDiffer` | internal/gate/ride_scan.go:67-73 | while each scan draws a fresh trace id, all published traces differ, lost publish replies included |
| `GateServices.GateService.Bind` | internal/gate/binding.go:102-152 | verify, resolve owner, burn token, bind, mark ticket: the whole new state and reply for every pattern of failures |
| `GateServices.GateService.NFCCheck` | internal/gate/binding.go:156-213 | replay or decide, promote, mark ticket, cache: the whole new state and reply |
| `GateServices.GateService.Reset` | internal/gate/binding.go:217-237 | unbind, clear the cached decision, return the ticket: the whole new state and reply |
| `GateServices.GateService.Scan` | internal/gate/ride_scan.go:55-83 | publishes only for a BOUND binding, then marks the ticket used |
| `GateServices.TicketTable.OwnerOfBindable` | internal/gate/binding.go:241-255 | the owner's email, unless the ticket is missing, unowned, used or expired |
| `GateServices.TicketTable.SetStatus` | internal/gate/binding.go:259-263 | sets the status of an existing ticket |
| `GateServices.TicketTable.MarkUsed` | internal/gate/ride_scan.go:88-99 | moves an active ticket to used and no other |
| `QrToken.PayloadInjective` | internal/gate/qr.go:26-32 | for uuids free of the separator, the signed payload determines ticket, uuid and timestamp |
| `QrToken.RetargetExact` | internal/gate/qr.go:15-32 | a token can be re-read as one for another ticket with the same payload if and only if its ticket id or uuid contains the separator |
| `QrToken.GenerateThenVerify` | internal/gate/qr.go:26-50 | an issued token verifies exactly while the clock is within one rotation of its stamp, on either side |
| `QrToken.OnlyTheTokenVerifies` | internal/gate/qr.go:36-50 | under an ideal MAC and separator-free ids, nothing but an issued token itself verifies with its signature |
| `QrLifetime.SingleUseExact` | internal/redis/client.go:225-234 | no token is consumed by two binds in any run, even two that verified it in the same millisecond, if and only if (R + 1) seconds plus the verify-to-mark delay is at most G + 30 seconds, with millisecond clocks |
| `QrLifetime.ConsumeKeeps` | internal/redis/client.go:225-234 | while that holds, burning a token keeps "consumed tokens are marked or too old to verify" |
| `QrLifetime.ReplayConsumesTwice` | internal/gate/qr.go:36-50 | when it does not hold, this schedule consumes one token twice |
| `GateTokens.BurntIsRefused` | internal/gate/binding.go:123-131 | after a bind whose token write took effect, until the key expires and through any calls, no bind with that token id changes anything, and one that gets as far as the token answers replay |
| `GateTokens.OneBindPerToken` | internal/gate/binding.go:123-131 | two binds of one run succeed with one token id only if the whole lifetime of the used-token key lies between them |
| `GateTokens.BindOnceExact` | internal/gate/binding.go:102-150 | no run of the gate, of binds showing issued tokens, ever binds twice with one token if and only if the used-token key outlives the token |
| `GateTokens.RebindBindsTwice` | internal/gate/binding.go:102-150 | when it does not, this run of bind, reset and late bind does |
| `GateTokens.BindConsumes` | internal/gate/binding.go:123-131 | a bind does to the used tokens what consuming does in the token machine, a first use there if and only if the gate does not answer replay |
| `Vouchers.RunKeepsRooted` | internal/voucher/voucher.go:55-117 | in every state that delegation, custody claims, sign-ups and the demo's seeding reach, a participant has an account or an older guardian but not both, emails are unique and custodial wallets have addresses |
| `Vouchers.GuardianWalk` | internal/postgres/repository.go:169-188 | the recursive query runs out within as many rounds as the id, and its unordered LIMIT 1 has one possible answer: the user of the family's head |
| `Vouchers.LevelIsOneAncestor` | internal/postgres/repository.go:173-178 | each round of the query holds at most one row |
| `Vouchers.LevelShrinks` | internal/postgres/repository.go:173-178 | the row of round k has an id at least k smaller than the start |
| `Vouchers.OnlyHeadHasAccount` | internal/voucher/voucher.go:60-97 | the head of each chain has the account, and nobody below it does |
| `Vouchers.WalkInEveryState` | internal/postgres/repository.go:169-188 | all of this holds after any sequence of delegations, custody claims, sign-ups, seeding steps and voucher operations |
| `Vouchers.AllocationIsFinal` | internal/postgres/repository.go:193-205 | over every sequence of those operations a voucher once allocated keeps its participant |
| `Vouchers.CustodialWalletsExact` | internal/voucher/voucher.go:197-202 | two custodial wallets are one if and only if seeding gave both dependents one address, or gave one the address dedicated to the other; those that delegation provisioned always differ |
| `Vouchers.SeededSiblingsShare` | internal/demo/seed.go:100-119 | seeding two dependents of one account gives both the account's own address |
| `Delegations.DelegateAnswers` | internal/voucher/voucher.go:55-117 | when a delegation gives which answer: ok, already allocated, invalid, guardian not found, store error |
| `Delegations.OkAllocates` | internal/postgres/repository.go:193-205 | an ok has allocated a voucher that was free to exactly the participant in the answer, and no other voucher changed |
| `Delegations.ErrAllocates` | internal/voucher/voucher.go:102-107 | an error has allocated nothing, unless it is a lost reply of the allocation itself |
| `Delegations.OkNames` | internal/voucher/voucher.go:60-97 | whom the answer names: the account's participant, known or new and pending; or a new dependent of that guardian, mint-ready with its own custodial wallet; nobody else changes |
| `Delegations.DelegatedOnce` | internal/postgres/repository.go:193-205 | over every run a voucher stays with the participant of the first ok and no second delegation of it succeeds |
| `Delegations.WalletResolves` | internal/voucher/voucher.go:120-146 | everyone is minted to their own stored address if and only if their wallet is own or custodial and has one; who is pending |
| `Delegations.CustodyMoves` | internal/voucher/voucher.go:175-194 | custody moves for a dependent only, to the wallet given, which they are minted to from then on; nothing else changes |
| `Decimals.DecimalInjective` | internal/voucher/voucher.go:200-202 | the decimal rendering of an integer determines it |
| `VoucherService.Repo.GetParticipantByEmail` | internal/postgres/repository.go:131-141 | the participant with that account email, if any |
| `VoucherService.Repo.CreateUser` | internal/postgres/repository.go:21-28 | a new user under a new id; a known email keeps its user |
| `VoucherService.Repo.CreateParticipant` | internal/postgres/repository.go:105-114 | inserts one row under the next id when it takes effect |
| `VoucherService.Repo.SetParticipantWallet` | internal/postgres/repository.go:155-161 | sets state and address of one row |
| `VoucherService.Repo.DelegateVoucher` | internal/postgres/repository.go:193-205 | allocates an unclaimed, unallocated voucher, else reports it taken |
| `VoucherService.Repo.UpsertPendingMint` | internal/postgres/repository.go:210-236 | one ledger row per participant and date, replaced on conflict |
| `VoucherService.Repo.RecordMint` | internal/postgres/repository.go:76-79 | one row per owner, ride and date; on conflict the digest is replaced and the participant is not |
| `VoucherService.Repo.OwnerUserIDForParticipant` | internal/postgres/repository.go:169-188 | the loop up the guardians finds the owner the recursive query finds; 0 when there is none |
| `VoucherService.Repo.FindDependent` | internal/demo/seed.go:121-133 | some dependent with that name and that guardian, if there is one |
| `VoucherService.Repo.Truncate` | internal/demo/reset.go:32-37 | empties one table and starts its ids over when it takes effect |
| `VoucherService.Service.DelegateVoucher` | internal/voucher/voucher.go:55-117 | resolve or create, provision the wallet, allocate: the whole new state and result for every pattern of failures |
| `VoucherService.Service.RecordPendingMint` | internal/voucher/voucher.go:151-168 | refreshes the ledger row with the wallet state of the stored participant |
| `VoucherService.Service.TakeCustody` | internal/voucher/voucher.go:179-194 | a dependent's wallet becomes own; anyone else is refused |
| `DayResolution.DayIsComplete` | internal/minter/resolver.go:70-113 | in every delegation-reachable state a clean pass gives each participant with rides exactly one resolution, pending with its ledger row refreshed or mint-ready with a non-empty wallet, and nobody else one |
| `DayResolution.DayIsIdempotent` | internal/minter/resolver.go:70-113 | after any pass, even one that failed half-way, a clean pass gives the result and ledger of a single clean pass |
| `DayResolution.DayWritesOwed` | internal/minter/resolver.go:77-99 | whatever fails, a pass writes only ledger rows it owes, each with the right contents |
| `DayResolution.CleanDayDone` | internal/minter/resolver.go:70-113 | what a clean pass leaves behind, from any table with well-formed rows |
| `DayResolution.ResolutionsSound` | internal/minter/resolver.go:77-111 | every resolution is of a participant who rode |
| `DayResolution.ResolutionsComplete` | internal/minter/resolver.go:77-111 | every participant who rode has one |
| `DayResolution.ResolutionsIncrease` | internal/postgres/repository.go:145-151 | and only one: resolutions are in increasing id order |
| `DayOutcomes.DayReportsExact` | internal/minter/resolver.go:70-113 | in every reachable state a pass without an error has done the whole day, and it reports one if and only if some participant's rides could not be read or some pending one's row could not be written |
| `DayOutcomes.PassExact` | internal/minter/resolver.go:77-112 | a pass that reports no error equals a clean pass |
| `DayOutcomes.FailedPassStops` | internal/minter/resolver.go:77-99 | a failed pass has resolved exactly those before the first visit that fails |
| `DayResolution.DayResolver.ListParticipants` | internal/postgres/repository.go:145-151 | all participants in id order |
| `DayResolution.DayResolver.Resolve` | internal/minter/resolver.go:70-113 | the loop equals the specified pass for every pattern of failures |
| `AttendanceNft.Chain.MintBatch` | move/attendance_nft/sources/attendance.move:101-137 | aborts exactly on a recipient that reads as the zero address in any spelling, an arity mismatch or a name that is not UTF-8 and then leaves nothing; otherwise appends one NFT per ride, index by index |
| `AttendanceNft.AbortsExactly` | move/attendance_nft/sources/attendance.move:101-137 | which abort a batch gives, and that it gives none if and only if the recipient is not zero, the lists are aligned and the names are UTF-8 |
| `AttendanceNft.BatchNfts` | move/attendance_nft/sources/attendance.move:115-136 | the i-th NFT carries the i-th ride, name and URL and the recipient |
| `BatchMint.NamesDiffer` | internal/minter/batch_mint.go:115-121 | display names tell rides apart |
| `BatchMint.MintCorrespondence` | internal/minter/batch_mint.go:75-113 | arity asserts never fire; a metadata failure mints nothing; a minted result is one NFT per ride, index by index, all to the resolved wallet, if and only if the wallet does not read as the zero address in any spelling and the names are UTF-8; otherwise nothing |
| `BatchMint.MintOneOnly` | internal/minter/batch_mint.go:75-113 | one call sends at most one transaction and touches the mint log only |
| `BatchMint.AttributionExact` | internal/postgres/repository.go:76-98 | after the records a participant is found as minted if and only if they were before or some reached record took effect on a row nobody had |
| `BatchMint.RecordsOnly` | internal/postgres/repository.go:76-79 | records never change whom a row is attributed to and add rows of this owner, ride list and date only |
| `MintLog.RecordsExact` | internal/postgres/repository.go:76-98 | every row a record is reached for and takes effect on names this transaction and whoever had it first; every other row is as it was, digest included |
| `MintLog.MintAnswers` | internal/minter/batch_mint.go:75-113 | when a result says minted, with which digest, and when it carries an error; one without has a row for every ride naming that transaction |
| `MintLog.BatchDigests` | internal/minter/batch_mint.go:66-73 | after a batch every row names the transaction of the last entry that wrote it and the participant who had it first; rows nobody wrote are untouched |
| `MintLog.LastWrittenIs` | internal/minter/batch_mint.go:66-73 | that is the digest of an entry that writes the key when no later one does |
| `MintLog.ResultsExact` | internal/minter/batch_mint.go:66-73 | one result per entry in order, each minted if and only if its own metadata, rides and transaction allow it, with its own digest |
| `BatchMint.BatchSends` | internal/minter/batch_mint.go:62-73 | `Run` appends to the chain exactly the transactions of its entries that send -- metadata for every ride, a ride, and a call that takes effect -- in order, whatever the mint log holds |
| `BatchMint.RunDistinctExact` | internal/minter/batch_mint.go:62-73 | one `Run` over distinct participants keeps the chain's transactions distinct if and only if no entry that sends is of a participant and date already there |
| `BatchMint.RunTwiceExact` | internal/minter/batch_mint.go:62-73 | running one batch twice, from any state, repeats a transaction if and only if some entry sends both times |
| `BatchMint.BatchMinter.RecordMintForParticipant` | internal/postgres/repository.go:88-98 | resolves the owner, then writes one row; an unknown owner is an error |
| `BatchMint.BatchMinter.FillMetadata` | internal/minter/batch_mint.go:82-92 | fills two arrays of the ride list's length in order, or stops at the first ride without metadata |
| `BatchMint.BatchMinter.RecordRides` | internal/minter/batch_mint.go:104-111 | one record per ride until the first error |
| `BatchMint.BatchMinter.MintParticipant` | internal/minter/batch_mint.go:75-113 | metadata, transaction, records: the whole new state and result |
| `BatchMint.BatchMinter.Run` | internal/minter/batch_mint.go:66-73 | every live participant in turn, a failure not stopping the rest: the whole new state and all results |
| `DemoRuns.DemoRunKeeps` | internal/demo/scenarios.go:325-385 | one run keeps the invariant behind at-most-once: distinct transactions, each recognised by the guard, rows attributed to an existing rider of the row's owner; provided that for every entry that sends, the transaction reports so, the first record takes effect, and the participant has an owner and a first ride no relative took that day |
| `DemoRuns.FirstRecordAttributes` | internal/demo/scenarios.go:452-465 | when no relative took the first ride that day, the first record gives the participant a row of their own, so the guard will find it |
| `DemoRuns.RecognisedExact` | internal/demo/scenarios.go:450-465 | one mint leaves a transaction the guard will not find if and only if it sends one for a participant without a mint log and either the transaction reports failure or none of its records wins a row |
| `DemoHistory.AtMostOneMint` | internal/demo/scenarios.go:209-223 | over every history that starts empty -- any number of runs of the demo and calls of the mint service on any dates, with seeding, sign-ups, delegations, wallet changes, rides and resolved days in between -- each participant gets at most one transaction per date and the demo's guard knows of it; provided each run meets the conditions of DemoRunKeeps, each call those of RunDayKeeps, and no reset follows a transaction |
| `DemoHistory.AdvanceKeeps` | internal/demo/scenarios.go:209-223 | each event of such a history keeps the invariant |
| `DemoHistory.StepGrows` | internal/demo/seed.go:66-119 | every operation on participants and users keeps the emails, guardians and user ids that exist, and the mint logs |
| `DemoHistory.OwnerStays` | internal/postgres/repository.go:169-188 | so whoever has an owner keeps that owner |
| `DemoHistory.ResetExact` | internal/demo/reset.go:20-45 | a reset leaves the guard knowing of every transaction if and only if none was sent before it or it failed before it reached the mint logs |
| `DemoRemints.SharedRidesRemint` | internal/demo/scenarios.go:452-465 | from empty tables: a seeded account and its dependent take one ride and two successful runs follow; the first mints both, the second mints the dependent again |
| `DemoRemints.ResetRemints` | internal/demo/reset.go:20-45 | from empty tables: seed, ride and run, reset, and the same again; the participant gets two transactions for one date |
| `DemoRemints.RunDayRemints` | cmd/minter/main.go:166-218 | from empty tables: seed, ride, one run of the demo or one call of the mint service, and one call more; without a fault, a relative or a reset the participant gets two transactions for one date |
| `DemoRuns.ShuffleKeepsOnce` | internal/demo/scenarios.go:362-366 | shuffling a batch keeps each participant in it once |
| `MintDriver.RunDayExact` | cmd/minter/main.go:166-218 | one call of the mint service keeps the transactions distinct if and only if no mint-ready participant whose entry sends already has one for the date, whatever the mint log holds |
| `MintDriver.ReadyIsUnguarded` | cmd/minter/main.go:197-209 | it mints whom the demo driver would mint if there were no mint logs to find |
| `MintDriver.RunDayKeeps` | cmd/minter/main.go:166-218 | a call that sends for nobody who has a transaction of the date, and records what it sends, keeps the at-most-once invariant |
| `MintDriver.Minter.RunForDay` | cmd/minter/main.go:166-218 | resolve, select, mint: the whole new state and all results; an error exactly for a missing date or a failed resolution |
| `MintDriver.Minter.Select` | cmd/minter/main.go:197-209 | every mint-ready resolution with a wallet, in order |
| `MintSelection.DemoMintsExactly` | internal/demo/scenarios.go:332-366 | the demo mints exactly the participants who rode, have a wallet stored and no mint log of the date, each with all their rides, to that wallet; nobody when the day could not be resolved or a check failed |
| `MintSelection.ServiceMintsExactly` | cmd/minter/main.go:185-209 | the mint service mints exactly those who rode and have a wallet stored, minted before or not; nobody without a date or when the day could not be resolved |
| `MintSelection.BatchGains` | internal/minter/batch_mint.go:66-113 | a batch adds to the chain exactly the NFTs of its entries that send and that the Move call takes, in order |
| `MintSelection.DemoMintsOwed` | internal/demo/scenarios.go:325-385 | every NFT a run of the demo adds is for a ride someone took on that date and goes to the wallet stored for them |
| `MintSelection.ServiceMintsOwed` | cmd/minter/main.go:166-218 | and so is every NFT a call of the mint service adds |
| `DemoRuns.Orchestrator.FindsMintLog` | internal/demo/scenarios.go:452-465 | true exactly when a mint log of the date carries the participant |
| `DemoRuns.Orchestrator.Sort` | internal/demo/scenarios.go:339-359 | splits mint-ready resolutions into live and already minted; a failed check ends the run |
| `DemoRuns.Orchestrator.RunMint` | internal/demo/scenarios.go:325-385 | resolve, check, shuffle, mint: the whole new state |
| `DemoRuns.Orchestrator.Reset` | internal/demo/reset.go:20-37 | empties the tables in order up to the first statement that fails, and leaves the chain as it is |
| `DemoSeeding.Seeder.SeedGuardian` | internal/demo/seed.go:66-98 | a prefix of the seeding operations of an account for every pattern of failures, all of them when no error is returned, and then the returned participant has that email |
| `DemoSeeding.Seeder.SeedDependent` | internal/demo/seed.go:100-119 | the same for a dependent, whose custodial wallet is the address passed in; without an error the returned participant has that name and guardian |
| `CidCache.PinOnce` | internal/storage/cache.go:40-95 | under every interleaving of callers each ride has at most one successful metadata pin, and every successful call for the ride, on whatever date, returned that pin's assets |
| `CidCache.PinBudget` | internal/storage/cache.go:36-95 | the objects pinned for a ride are two if cached, plus one per attempt given up after its artwork was pinned, plus one per lost metadata reply; so "two pins per ride" holds if and only if no attempt got that far and failed |
| `CidCache.InvStays` | internal/storage/cache.go:40-95 | each step of any caller keeps the lock, pin and answer invariant |
| `CidCache.CacheGrows` | internal/storage/cache.go:87-87 | a cached entry never changes |
| `CidCache.LocksStay` | internal/storage/cache.go:42-53 | readers and a writer exclude each other |
| `CidCache.RunKeepsInv` | internal/storage/cache.go:40-95 | the invariant and the pin accounts hold over whole runs, and entries stay |
| `CidCache.SomeoneMoves` | internal/storage/cache.go:42-53 | while any call is outstanding some call can step: no deadlock |
| `CidCache.StepsRunOut` | internal/storage/cache.go:40-95 | every step brings its call nearer the return and disturbs no other call |
| `CidCache.WholeCallRuns` | internal/storage/cache.go:40-95 | a call nobody interrupts is a run of the machine |
| `CidAnswers.CallAnswers` | internal/storage/cache.go:40-95 | an uninterrupted call answers assets if and only if the ride is cached or both pins succeed: the cached ones, or the new ones, which are then cached; a failed call caches nothing |
| `CidAnswers.GivesUpExact` | internal/storage/cache.go:60-94 | in every interleaving a call answers without assets if and only if one of its own pins failed |
| `CidAnswers.CachedIsAnswered` | internal/storage/cache.go:42-57 | once a ride is cached and nobody outstanding has given up on it, every later answer for it is the cached assets |
| `CidCache.CIDCache.GetOrPin` | internal/storage/cache.go:40-95 | equals that uninterrupted call: hit, failure or pin-and-store |
| `CidCache.CIDCache.PinAndStore` | internal/storage/cache.go:60-94 | the slow path: stored if and only if both pins report success |
| `LoadGen.EveryEventCounted` | cmd/loadgen/main.go:136-258 | in every reachable state emitted = waiting to be sent + channel + uncounted buffers + produced + errors, the manifest holds published ids only, and the event limit is respected |
| `LoadGen.ShutdownExact` | cmd/loadgen/main.go:292-295 | at shutdown produced + errors = emitted if and only if there was a producer (or nothing to produce); then every emitted event was published or reported as an error, as a multiset |
| `LoadGen.ManifestIsPublished` | cmd/loadgen/main.go:101-114 | at shutdown the manifest is exactly the multiset of successfully published ids, one line per produced event |
| `LoadGen.InvStays` | cmd/loadgen/main.go:136-258 | each step of generator, producers, writer or shutdown keeps the conservation invariant |
| `LoadGen.OrderStays` | cmd/loadgen/main.go:136-258 | between generator and pool events are neither lost, doubled nor reordered |
| `LoadGen.EventStays` | cmd/loadgen/main.go:146-185 | copies of each event: received = held + published + failed, step by step |
| `LoadGen.IdStays` | cmd/loadgen/main.go:101-114 | copies of each id: published = in the manifest + queued + in a producer's hands, step by step |
| `LoadGenReports.DuplicatesExact` | cmd/loadgen/main.go:222-248 | the reported duplicate count is the number of repeated ids if and only if the first event emitted was not flagged as a duplicate |
| `LoadGenReports.RepeatsOf` | cmd/loadgen/main.go:222-248 | flagged events are the repeated ids plus those flagged before there was an id to repeat |
| `LoadGenReports.WorkRunsOut` | cmd/loadgen/main.go:292-295 | once the generator has stopped, every step that does anything uses up work |
| `LoadGenReports.ShutdownProceeds` | cmd/loadgen/main.go:292-295 | and some such step is possible until everything is finished, whatever channels are full and with a manifest channel of any capacity, unbuffered included |
| `LoadGenReports.ShutdownCompletes` | cmd/loadgen/main.go:292-295 | so shutdown can be completed from every reachable state in which the generator has stopped, within as many steps as there is work left |
| `LoadGenProducer.Producer.Flush` | cmd/loadgen/main.go:146-166 | the machine's publish, report, count and reset steps at once: an empty buffer is left alone, a full one counted once and, on success, handed over as a fresh list of its ids, to the queue or straight to the waiting writer; lists handed over before do not change |
| `LoadGenProducer.Producer.OnEvent` | cmd/loadgen/main.go:170-181 | a run of the machine: receive, and at one hundred events the flush steps; the buffer never outgrows its capacity and no list handed over changes |
| `LoadGenProducer.Producer.OnTick` | cmd/loadgen/main.go:182-184 | a run of the machine: the tick and, with something in the buffer, the flush steps |
| `LoadGenProducer.Producer.OnClosed` | cmd/loadgen/main.go:171-174 | a run of the machine: the last flush, and the producer is gone |
| `LoadGenProducer.Producer.HandOver` | cmd/loadgen/main.go:154-165 | a successful publish: everything buffered is counted as produced and its ids go out in a fresh list |
| `LoadGenProducer.Producer.CountErrors` | cmd/loadgen/main.go:151-153 | a failed publish: everything buffered counts as errors and nothing goes to the manifest |
| `Percentile.InsertionSort` | cmd/loadgen/main.go:339-345 | sorts in place and permutes |
| `Percentile.Percentile` | cmd/loadgen/main.go:325-337 | returns a sample with rank floor(p(n-1)): more than that many samples do not exceed it, at most that many are below it; the samples keep their order |
| `Percentile.CountsOfBag` | cmd/loadgen/main.go:334-336 | reordering changes no rank |
| `DeliveryCheck.CountManifest` | scripts/bench/verify_delivery.go:59-94 | per id the number of lines, the distinct ids and the number of lines; fatal exactly on a line that does not parse, a line the scanner cannot read, or a manifest without ids |
| `DeliveryCheck.Observe` | scripts/bench/verify_delivery.go:119-146 | over the consumed prefix, observed is the number of distinct manifest ids seen and duplicates the sum over ids of max(0, seen - expected); it stops at the first moment all ids were seen |
| `DeliveryCheck.Verify` | scripts/bench/verify_delivery.go:153-166 | the report of that prefix: rate, duplicates, pass |
| `DeliveryCheck.FullRateExact` | scripts/bench/verify_delivery.go:153-159 | the success rate is 1 if and only if the whole stream held every manifest id and none of them is empty |
| `DeliveryCheck.EarlyStopExact` | scripts/bench/verify_delivery.go:140-146 | the reported duplicates are those of the whole stream if and only if no id goes over its expected count behind the stopping point |
| `DeliveryCheck.SumTakesOut` | scripts/bench/verify_delivery.go:119-146 | the sum over ids does not depend on their order |

## Left out

- NoScanIsLost: assumes that equal trace ids mean equal rides (proved of what the gate publishes in EndToEnd, from trace ids being fresh, but not true of the load generator's duplicates; NoLossExact shows it to be needed), no crash inside a handler, marker clears that take effect, claims whose replies arrive, and no message held by two workers; each is shown to be needed.
- FailureIsSkipped: one two-message log for each retry limit; OffsetBreaksExact says of every step, from any state in which the promise holds, whether it breaks it.
- QuietAgrees: assumes that equal trace ids mean equal rides, which CacheAgreementExact shows to be needed; it ignores the 48-hour expiry of the daily ride set.
- StoresStayCoupled: takes each gate call as one step, and ticket writes that succeed; CouplingExact says which single calls break it.
- AllowedMeansBound: takes each gate call as one step; a check whose promotion interleaves with a reset is covered only by WriteHalfExact.
- OnlyTheTokenVerifies: the MAC is ideal, equal only on equal payloads; HMAC-SHA256 itself is not modelled.
- AtMostOneMint: assumes that every entry that sends is of a participant with an owner account and a first ride no relative of the same owner took that day, that its transaction reports so and its first record takes effect, that a call of the mint service sends for nobody who has a transaction of the date, and that no reset follows a transaction; RecognisedExact, SharedRidesRemint, RunDayExact, RunDayRemints, ResetExact and ResetRemints show what happens otherwise. Two drivers at work at the same time are not modelled.
- RunForDay: a mint service started without a Sui client answers every call with an error; that is not modelled.
- EveryRowIsJustified: fresh trace ids are an assumption on the calls; how a random uuid comes to be fresh is not modelled.
- SingleUseExact: one millisecond clock serves issuing, checking and Redis, as in BindOnceExact; gates whose clocks differ are not modelled.
- DrainCounts: a pass without interleaving; OneDrainCounts and CountsBalance are about interleaved ones.
- SeedGuardian: the account's Sui columns, written last, are not modelled.
- SeedDependent: a dependent's rides come with a voucher row allocated on insert; rides are events of their own here, and that row is not modelled.
- Orchestrator.Reset: the Redis flush that follows the truncations belongs to another store and is not modelled.
- MintCorrespondence: which recipients read as the zero address and which names are UTF-8 are parameters; gas, object ids and the emitted event are not modelled.
- OnEvent: when its flush succeeds, it needs room in the manifest queue or a waiting writer, as OnTick and OnClosed do; a producer that blocks until there is either is described from the moment there is.
- Observe: the stream is the sequence of fetch results before the timeout; the recovery time is not modelled.
- Kafka inside the library: rebalancing, broker replication, batching and async producing; a fetch returns some uncommitted message nobody holds.
- The lookup from email to `users.id` in the scan insert: a row is stored with the user's email.
- Time zones: days are UTC days of the scan time, for handler, drain and day query alike.
- Waiting: backoff sleeps, tickers and rate limiting; only attempt counts and the doubling remain.
- The rides of a participant on a day: the SQL join is a parameter, so is distinctness by ride and time; voucher-based attribution of a dependent's rides is inside that join.
- The binding expiry (end of the next day) is a parameter of each bind.
- JSON, SQL text and HTTP: records and keyed maps stand for them; a corrupt cached grace decision, which the code re-evaluates, does not occur.
- The ticket-level grace window, `GetUserRides` and health checks: single-key reads and writes without further structure.
- Sui signing, retries and wallet derivation, Pinata HTTP, Google token parsing, telemetry, configuration, the React frontend: foreign or plumbing.
- Demo steps, labels, transaction cards, artwork and display names: presentation.
- `percentile` works on durations as integers of nanoseconds; the conversion to float64 is not modelled.
- `update_metadata`, `burn` and the single mint of the Move module: one-object operations without a loop.

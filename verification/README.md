# Verified models of pay

`pay` is a toolkit for paid HTTP requests on Solana. This project models the parts
of it that are hardest to get right — the load benchmark that moves real funds, the
agent client and relay, the bounded tables of the connect service and the payment
debugger — in Dafny 4.11, and proves what they keep on every run and every input.

Concurrent and crash-prone code is modelled as a state machine whose steps are the
source's lock sections, saves and network answers, taken in any order; code that
updates an object or loops over local variables is a class or a method proved
against a function. `dafny verify dfyconfig.toml` checks the whole project.

## What is modelled

- **Fixture setup and teardown** (`FixtureLedger`, `FixturePacking`, `FixtureStore`,
  `FixtureProtocol`, `FixtureSafety`, `FixtureBlocked`, `FixtureUnblocked`): wallets on a
  ledger, the saved journal, a process that may crash between any two steps, and a
  cluster that may land any signed transaction at most once before its last valid height.
- **Batch-settlement vouchers** (`BatchSettlement`, `VoucherQueue`): signing on demand as the
  reference; the pre-signed window and the background signer's queue as its two fast
  forms.
- **The open-loop driver** (`DriverMetrics`, `RoundRobin`, `Driver`, `DriverFleet`):
  one worker's heap, slots and in-flight set, its metrics, and a whole run.
- **The run journal and the pipeline** (`RunJournal`, `Engine`, `EngineSafety`):
  funding, provisioning, settling and sweeping with answers in any order and any save
  failing.
- **The agent client** (`AcpClient`, `AcpOwnership`) and **the Buzz delivery
  tracker** (`BuzzDelivery`, `UnicodeText`).
- **Admission to bounded tables** (`Capacity`) and **the RPC rate limiter**
  (`RateLimiter`).
- **The payment debugger's flow correlation** and its browser copy (`Correlation`,
  `RetryOwnership`, `FlowReplica`).
- **Token amounts** (`DigitText`, `Decimals`, `FormatUnits`).

## Where the code does not do what one would expect

Each of these is a lemma at a concrete run or input, next to one that says exactly when
it happens.

- *Teardown.* The two saves that open a teardown (rust/bench/src/fixtures.rs:489-490)
  are separate. A crash between them leaves the old checkpoint, and the next teardown
  starts there: the fixture is saved as torn down with wallets still open
  (`SplitTeardownStrands`). `TeardownReturnsEverything` shows that this happens exactly
  after such a crash.
- *Failed pending transactions.* A pending transaction that the cluster executed with an
  error is never cleared (rust/bench/src/fixtures.rs:1348-1354). While the cluster
  reports it, no later setup or teardown gets past the pending list
  (`FailedPendingBlocks`); `FailureCanBlock` is a run that gets there. `BlockedExactly`
  and `DownOpensExactly` show that only such a transaction does this, unless its status
  was read just before it failed (`AskedTooEarlyHappens`, `AskedTooEarlyGetsPast`).
- *Pre-signed vouchers.* If rebuilding the window after a correction would overflow a
  u64, the old window is kept and the next voucher is a stale one
  (`OverflowingCorrectionSendsStale`, `CorrectionHonouredExactly`).
- *Driver.* The deadline is checked on one clock reading and the due time on a later
  one (rust/bench/src/driver.rs:694-698), so a worker may take one tick at or after the
  deadline (`LateTickIsTaken`); `LateMeansTaken` says on which clock readings, and
  `WorkerAccounts` counts it. Past a u64 the exit counters saturate and no longer add up
  once a request was sent (`SaturatedRun`, `WorkerAccounts`).
- *Agent client.* The clean-up after a failed write removes the session's turn without
  checking whose it is (rust/crates/acp/src/client.rs:287-291). If the agent answers a
  prompt whose write was reported as failed, a response can end another prompt's turn
  (`AnsweredFailedPrompt`); `OwnershipLostExactlyByFault` shows that only this does it.
- *Buzz delivery.* The documentation says that only a successful prompt response
  delivers (rust/crates/acp/src/lib.rs:127-128). The code delivers on any agent frame
  that carries the prompt's id and is not a session update, a request of the agent
  included (`RequestDelivers`); `OnlyResponsesDeliverExactly` says when the
  documentation holds. The model follows the code.
- *Capacity.* A key that is already in use overwrites its row whoever owns it
  (`TakenKeyOverwrites`, `FreshKeySparesOthers`).
- *Correlation keys.* The client address is whatever the X-Forwarded-For header says
  (web-ui/api/index.ts:168-171) and may hold a slash, so two address and path pairs can
  share a key and a retry can settle another path's flow (`RetrySettlesAnotherPath`);
  `WrongFlowSettledExactly`, `PromiseBrokenExactly` and `KeysSharedExactly` say when.
- *Whose flow a retry settles.* The index keeps one flow per key and drops a newer flow's
  entry when an older one of that key is evicted; the fallback takes the last flow waiting
  on the path. So a payment can settle another client's flow while its own client's waits
  (`EvictionMisleads`, `SecondPaymentMisleads`); `PassedOverExactly` says when.
- *Decimals above 19.* The number of decimals is an unchecked u8, and from 20 on the scale
  does not fit a u64: a build with overflow checks panics (`PanicsExactly`), one without
  wraps the scale, which from 64 on is zero (`WholeAmountLost`, `OneTokenIsLost`).
  `DecimalIsExact` says
  when the result is right all the same.
- *Formatted amounts.* The largest u64 is written as a word and does not read back, nor
  does an amount whose label has white space between other characters
  (`ReadsBackExactly`, `SpacedLabel`).

## Model

| member | source | states |
|---|---|---|
| `FixtureLedger.BalanceDeficit` | rust/bench/src/fixtures.rs:902-912 | a deficit brings a balance to its target; a balance above the target is refused unless allowed, and then needs nothing |
| `FixtureLedger.InstrsAccepted` | rust/bench/src/fixtures.rs:838-912 | a wallet's instructions are refused exactly when it is a setup that forbids balances above target and some token account has one |
| `FixtureLedger.WalletExecPrefix` | rust/bench/src/fixtures.rs:838-997 | carrying out the instructions built so far takes the wallet exactly as far towards its target as they were meant to |
| `FixtureLedger.PartialIsTarget` | rust/bench/src/fixtures.rs:838-997 | all slots together take a wallet to its target: topped up for setup, every account closed and swept for teardown |
| `FixtureLedger.ExecItems` | rust/bench/src/fixtures.rs:1112-1144 | a landed transaction takes each of its wallets to its target and moves no other wallet |
| `FixtureLedger.NothingToDo` | rust/bench/src/fixtures.rs:838-997 | no instruction is built for a wallet exactly when it is where the operation wants it |
| `FixtureLedger.TargetSettled` | rust/bench/src/fixtures.rs:838-997 | a wallet brought to its target is settled: repeating the operation does nothing |
| `FixtureLedger.ExecConserves` | rust/bench/src/fixtures.rs:838-997 | whatever instructions land, funder and wallets together hold the same supply of every token |
| `FixtureLedger.ClosedHoldNothing` | rust/bench/src/fixtures.rs:944-997 | wallets whose token accounts are all closed hold none of any token |
| `FixturePacking.PackIsLossless` | rust/bench/src/fixtures.rs:1146-1199 | the transactions packed hold exactly the users that have something to do, in order, none twice |
| `FixturePacking.PackIsTight` | rust/bench/src/fixtures.rs:1146-1199 | every packed transaction is within the size and user limits, and none was closed while the next user still fitted |
| `FixturePacking.PackFailsExactly` | rust/bench/src/fixtures.rs:1146-1199 | packing fails exactly when one user's own instructions are over the limit |
| `FixturePacking.PackSetupInstructionBatches` | rust/bench/src/fixtures.rs:1146-1199 | the loop over its local buffers computes those transactions, each labelled with its first user |
| `FixtureStore.PendingIsASet` | rust/bench/src/journal.rs:119-132 | a saved signature is in the pending list once however often it is added, and clearing removes it alone |
| `FixtureStore.FirstStop` | rust/bench/src/fixtures.rs:1338-1376 | the first pending transaction that has neither landed nor expired, or whose clearing is not saved |
| `FixtureStore.ClearedRemoves` | rust/bench/src/fixtures.rs:1338-1376 | clearing the first entries of a pending list leaves none of their signatures and every other entry, duplicates or not |
| `FixtureStore.ClearedDrops` | rust/bench/src/fixtures.rs:1338-1376 | without duplicates that is dropping them from the front |
| `FixtureStore.FixtureJournal.SetPhase` | rust/bench/src/journal.rs:109-112 | the phase changes in memory, and on disk if the write succeeds |
| `FixtureStore.FixtureJournal.Checkpoint` | rust/bench/src/journal.rs:114-117 | the checkpoint changes in memory, and on disk if the write succeeds |
| `FixtureStore.FixtureJournal.Retain` | rust/bench/src/journal.rs:119-132 | the retain loop drops the entries of one signature and keeps the rest in order |
| `FixtureStore.FixtureJournal.AddPendingTransaction` | rust/bench/src/journal.rs:119-125 | adds one signature to the pending set of any journal, keeps a duplicate-free list so, and saves |
| `FixtureStore.FixtureJournal.ClearPendingTransaction` | rust/bench/src/journal.rs:127-132 | removes one signature from the pending set of any journal and saves |
| `FixtureStore.FixtureJournal.ResolvePending` | rust/bench/src/fixtures.rs:1338-1376 | succeeds, leaving none, exactly when every pending transaction landed or can no longer land and every clearing is saved; otherwise memory and file hold exactly what was cleared and saved up to the first that stops it |
| `FixtureSafety.EveryRun` | rust/bench/src/fixtures.rs:274-603 | the full invariant of setup and teardown holds after every schedule of steps, crashes, restarts and landings |
| `FixtureSafety.SetupIsCrashSafe` | rust/bench/src/fixtures.rs:309-446 | every transaction that could still land is in the saved pending list, no wallet exceeds the larger of its start and its target, and a fixture saved as ready has every wallet exactly there |
| `FixtureSafety.SkippedMeansSplit` | rust/bench/src/fixtures.rs:485-492 | wallets are skipped by a teardown exactly when a crash separated its two opening saves with the checkpoint above zero |
| `FixtureSafety.TeardownReturnsEverything` | rust/bench/src/fixtures.rs:458-603 | tokens are conserved; a fixture saved as torn down has every account closed, the SOL swept and every token back with the funder if and only if no crash split the two opening saves, or it had nothing to hand out |
| `FixtureSafety.SplitTeardownStrands` | rust/bench/src/fixtures.rs:485-492 | a run, with the crash between the saves, that ends torn down with an account still open |
| `FixtureBlocked.BlockedForGood` | rust/bench/src/fixtures.rs:1338-1376 | once a failed pending transaction holds the process, every continuation keeps it pending, opens no window and never changes the saved phase |
| `FixtureBlocked.FailedPendingBlocks` | rust/bench/src/fixtures.rs:1348-1354 | at every point of every run a failed transaction in the saved pending list does so for good, unless a resolving pass read its status just before it failed |
| `FixtureBlocked.FailureCanBlock` | rust/bench/src/fixtures.rs:1348-1354 | a run that leaves a failed transaction pending with the process down |
| `FixtureUnblocked.BlockedExactly` | rust/bench/src/fixtures.rs:1338-1376 | at every point of every run of a fixture not torn down, some continuation gets a command past the pending list if and only if every failed pending transaction had its status read just before it failed |
| `FixtureUnblocked.DownOpensExactly` | rust/bench/src/fixtures.rs:1338-1376 | a stopped process can open a command it may start if and only if no pending transaction failed |
| `FixtureUnblocked.AskedTooEarlyGetsPast` | rust/bench/src/fixtures.rs:1356-1366 | a transaction asked about just before it failed is dropped once its height has passed |
| `FixtureUnblocked.AskedTooEarlyHappens` | rust/bench/src/fixtures.rs:1348-1366 | a run in which that comes up |
| `BatchSettlement.OnDemandClimbs` | rust/bench/src/scheme/batch_settlement.rs:995-1040 | between corrections, vouchers signed on demand climb by the base price with no gap or repeat |
| `BatchSettlement.OnDemandSource.NextRequest` | rust/bench/src/scheme/batch_settlement.rs:1021-1040 | the on-demand source sends the reference's next voucher |
| `BatchSettlement.CorrectionTakesEffect` | rust/bench/src/scheme/batch_settlement.rs:1066-1127 | the request after a correction is answered with corrected plus base, or refused if that overflows, whatever came before |
| `BatchSettlement.PreSign` | rust/bench/src/scheme/batch_settlement.rs:759-787 | the signing loop produces the ladder of cumulative amounts, or fails exactly when one would overflow |
| `BatchSettlement.WindowTracks` | rust/bench/src/scheme/batch_settlement.rs:759-787 | for every sequence of requests and corrections that neither overflows nor exhausts it, the window sends exactly what signing on demand would |
| `BatchSettlement.CorrectionHonouredExactly` | rust/bench/src/scheme/batch_settlement.rs:1093-1126 | the voucher after a correction is corrected plus base exactly when the rebuilt window fits a u64, nothing was left to go stale, or nothing was corrected |
| `BatchSettlement.OverflowingCorrectionSendsStale` | rust/bench/src/scheme/batch_settlement.rs:1093-1126 | a correction near the largest u64 after which a stale voucher is sent |
| `BatchSettlement.PresignedSource.NextRequest` | rust/bench/src/scheme/batch_settlement.rs:995-1040 | the source takes the front of its window |
| `BatchSettlement.PresignedSource.OnResponse` | rust/bench/src/scheme/batch_settlement.rs:1066-1127 | the rebuild loop replaces the window, or leaves it if an amount overflows |
| `VoucherQueue.CheckSendsNext` | rust/bench/src/scheme/batch_settlement.rs:996-1020 | an entry that passes the lane's epoch check is the very voucher that would be signed on demand |
| `VoucherQueue.EveryInterleaving` | rust/bench/src/scheme/batch_settlement.rs:902-957 | the queue invariant holds in every interleaving of signer, lane and corrections |
| `VoucherQueue.QueueRefinesOnDemand` | rust/bench/src/scheme/batch_settlement.rs:902-1092 | in every interleaving the lane has sent exactly what signing on demand would have; no stale entry is sent or waits behind a fresh one; the queue never overflows |
| `DriverMetrics.RecordBalances` | rust/bench/src/driver.rs:201-250 | recording keeps completed = ok + fail, accepted at most ok and each per-second series summing to its counter |
| `DriverMetrics.MergeBalances` | rust/bench/src/driver.rs:292-326 | merging keeps the same equations, and scheduled = dispatched + dropped |
| `DriverMetrics.MergeInAnyOrder` | rust/bench/src/driver.rs:447-450 | merging metrics gives the same totals in any order |
| `DriverMetrics.JoinedInAnyOrder` | rust/bench/src/driver.rs:447-450 | the join loop, which starts from empty totals and merges one finished worker after another, gives the same totals in whatever order they finish |
| `DriverMetrics.SeriesSums` | rust/bench/src/driver.rs:345-360 | a recorded completion adds one to its series' sum, and merged series add up |
| `DriverMetrics.RecordInSeries` | rust/bench/src/driver.rs:345-351 | the in-place series update is the specified one |
| `DriverMetrics.MergeIntoSeries` | rust/bench/src/driver.rs:353-360 | the resize and add loop computes the pointwise sum |
| `DriverMetrics.MergeIntoCounts` | rust/bench/src/driver.rs:292-326 | the loop over a count map adds it key by key |
| `DriverMetrics.LocalMetrics.RecordCompletion` | rust/bench/src/driver.rs:201-250 | the metrics object records one completion |
| `DriverMetrics.LocalMetrics.RecordSimple` | rust/bench/src/driver.rs:256-290 | the closed loop's record is the full record of a request that counts as dispatched, and schedules nothing |
| `DriverMetrics.LocalMetrics.MergeWith` | rust/bench/src/driver.rs:292-326 | the metrics object takes in another's counts |
| `RoundRobin.DealtEvenly` | rust/bench/src/driver.rs:375-387 | bucket sizes are the quotient, plus one below the remainder, so they differ by at most one |
| `RoundRobin.EveryItemDealt` | rust/bench/src/driver.rs:384-387 | item i is in bucket i mod n at place i div n |
| `RoundRobin.NothingElseDealt` | rust/bench/src/scheme/batch_settlement.rs:872-878 | place k of bucket w holds item kn + w and nothing else, so each channel has exactly one signer |
| `RoundRobin.Partition` | rust/bench/src/driver.rs:376-387 | the dealing loop computes that partition |
| `Driver.Peek` | rust/bench/src/driver.rs:695-700 | finds the entry with the earliest time, lowest slot first |
| `Driver.DueCountsTicks` | rust/bench/src/driver.rs:818-826 | the closed form counts, one by one, the ticks before the deadline, capped at a u64 |
| `Driver.EveryScript` | rust/bench/src/driver.rs:661-809 | the scheduler's invariant holds after every script of clock readings and completions |
| `Driver.OneRequestPerSource` | rust/bench/src/driver.rs:693-809 | a source is idle with exactly one heap entry carrying its next time, or in flight exactly once with none; the ready-slot expectation never fails; in-flight never exceeds the cap |
| `Driver.SourceMadeWhole` | rust/bench/src/driver.rs:811-826 | a source's ticks taken plus its deficit are the larger of the ticks taken and the ticks before the deadline |
| `Driver.LateMeansTaken` | rust/bench/src/driver.rs:693-700 | a late tick is recorded exactly when a first clock reading before the deadline was followed by a second at or after the earliest tick, itself at or after the deadline |
| `Driver.SentIsDispatched` | rust/bench/src/driver.rs:201-250 | the dispatched counter is the number of completions whose request was sent |
| `Driver.WorkerAccounts` | rust/bench/src/driver.rs:661-826 | at exit scheduled is the plan's ticks, plus the late one if the script took it, capped at a u64; it equals dispatched plus dropped exactly when it fits or the script sent nothing |
| `Driver.LateTickIsTaken` | rust/bench/src/driver.rs:693-700 | a script with no planned tick and one scheduled |
| `Driver.SaturatedRun` | rust/bench/src/driver.rs:811-826 | a script after which scheduled is not dispatched plus dropped |
| `Driver.Advance` | rust/bench/src/driver.rs:693-809 | one pass of the loops makes exactly the step of the next clock reading or completion |
| `Driver.AddDeficits` | rust/bench/src/driver.rs:811-815 | the final loop adds each idle source's deficit to scheduled and dropped |
| `Driver.RunWorker` | rust/bench/src/driver.rs:661-816 | the worker, run on any script, returns the model's metrics once nothing is in flight |
| `DriverFleet.DealingKeepsTicks` | rust/bench/src/driver.rs:375-387 | dealing sources over workers neither loses nor adds a tick |
| `DriverFleet.RunAccounts` | rust/bench/src/driver.rs:365-453 | for every order in which the workers are joined, the merged report is balanced and schedules each worker's ticks capped at a u64; it accounts for all exactly when each worker's fit or it sent nothing, and then schedules the ticks of the whole plan and one for each worker that took a late tick |
| `DriverFleet.NoWorkerIdle` | rust/bench/src/driver.rs:369-387 | with at least one source no worker is left without one |
| `DriverFleet.CapsCover` | rust/bench/src/driver.rs:395 | the workers' caps add up to at least the configured concurrency, exceeding it by less than one each |
| `RunJournal.SweepMarks` | rust/bench/src/journal.rs:315-325 | marking succeeds exactly when every index has a record, and changes nothing but their marks |
| `RunJournal.LoadedIndex` | rust/bench/src/journal.rs:268-285 | the rebuilt index is the inverse of the user vector exactly when the file has no duplicates |
| `RunJournal.AsMapReplace` | rust/bench/src/journal.rs:302-312 | replacing a record in place is replacing it in the map from index to record, and keeps the inverse |
| `RunJournal.Journal.Load` | rust/bench/src/journal.rs:268-285 | a loaded journal is consistent exactly when its file has no duplicate index |
| `RunJournal.Journal.UpdateUsers` | rust/bench/src/journal.rs:302-312 | the update loop is the map update, keeps the index exact and never moves a user |
| `RunJournal.Journal.UpsertUsers` | rust/bench/src/journal.rs:297-300 | updates the users and saves them as one checkpoint |
| `RunJournal.Journal.MarkUsersSwept` | rust/bench/src/journal.rs:315-325 | marks in order and saves; at the first index without a record it fails without saving, those before it marked in memory |
| `RunJournal.Journal.SetStatus` | rust/bench/src/journal.rs:291-294 | sets the status and saves |
| `Engine.ReceiveOne` | rust/bench/src/engine.rs:203-266 | handling one outcome over the journal object makes the model's step |
| `Engine.Receive` | rust/bench/src/engine.rs:202-271 | the provisioning loop over the journal object and its buffers follows the model until it must return |
| `EngineSafety.EveryRun` | rust/bench/src/engine.rs:158-422 | the pipeline's invariant holds after every order of answers and whichever save fails |
| `EngineSafety.FundedOnlyAfterIntent` | rust/bench/src/engine.rs:162-185 | a funding call is only issued for a user whose saved record says funding has started |
| `EngineSafety.SweptOnlyAfterClose` | rust/bench/src/engine.rs:368-413 | a user is saved as swept only after its known channel closed and its wallet was emptied |
| `EngineSafety.CompleteMeansSwept` | rust/bench/src/engine.rs:366-422 | Complete is saved only when every user of the shard is saved as swept |
| `EngineSafety.CleanupIsExact` | rust/bench/src/engine.rs:195-266 | every answered user is owed exactly one sweep, and no sweep names a user without a record |
| `EngineSafety.StrictFailureLosesNothing` | rust/bench/src/engine.rs:221-264 | when strict provisioning gives up, every result it received is in the file |
| `EngineSafety.CrashLosesAtMostOneCheckpoint` | rust/bench/src/engine.rs:23-26 | at every point, also after a failed save, at most 1024 received results and at most 1024 sweeps are missing from the file |
| `AcpClient.EveryTurnEndsOnce` | rust/crates/acp/src/client.rs:150-162 | in every interleaving a session has one open turn, an ended channel is unreachable, and a turn whose sender is gone reads as what it was sent, ending in exactly one terminal event |
| `AcpClient.UpdateReachesItsTurn` | rust/crates/acp/src/client.rs:515-547 | in every run an update is appended to the open turn of its own session and changes nothing else |
| `AcpClient.DrainedIsSent` | rust/crates/acp/src/client.rs:411-429 | iterating a turn yields exactly the events sent, with a failure added only if none was terminal |
| `AcpClient.Turn.Next` | rust/crates/acp/src/client.rs:414-428 | yields the next of the remaining events and nothing after the terminal one |
| `AcpClient.Turn.CollectText` | rust/crates/acp/src/client.rs:397-408 | the draining loop returns the concatenated text chunks and the terminal event |
| `AcpOwnership.CleanRunsOwn` | rust/crates/acp/src/client.rs:263-296 | unless the agent answers a prompt whose write failed, a response only ever ends its own prompt's turn |
| `AcpOwnership.ResponseEndsItsOwnTurn` | rust/crates/acp/src/client.rs:557-589 | in every clean run a response puts its event on its own prompt's channel and closes that turn alone |
| `AcpOwnership.OwnershipLostExactlyByFault` | rust/crates/acp/src/client.rs:263-296 | after any clean run a step makes some clean continuation end another prompt's turn if and only if it makes one prompt both answered and failed |
| `AcpOwnership.AnsweredFailedPrompt` | rust/crates/acp/src/client.rs:287-291 | a run in which the response to prompt 0 ends the turn of prompt 1 |
| `UnicodeText.TrimSplits` | rust/crates/acp/src/lib.rs:197 | trimming removes the white space at both ends, all of it, and nothing else |
| `BuzzDelivery.PublishingStep` | rust/crates/acp/src/lib.rs:234-251 | how one tool-call frame changes which calls are known to publish, against their whole history |
| `BuzzDelivery.TrackMatches` | rust/crates/acp/src/lib.rs:148-252 | after every orderly history the tracker's summary of each open turn is what the history says |
| `BuzzDelivery.DeliversExactly` | rust/crates/acp/src/lib.rs:184-206 | a delivery is made exactly when the closing frame has no error, a destination was named, no Buzz publish completed during the turn and the trimmed text is not empty; its content is that text |
| `BuzzDelivery.ExpectedExactly` | rust/crates/acp/src/lib.rs:184-206 | something is delivered exactly for an error-free frame on an open turn with a destination, no completed publish and text that is not all white space |
| `BuzzDelivery.OnlyResponsesDeliverExactly` | rust/crates/acp/src/lib.rs:127-206 | all deliveries of an orderly history are made by responses if and only if no agent request in it carries the id of a prompt that is open and deliverable then |
| `BuzzDelivery.RequestTakesTheTurn` | rust/crates/acp/src/lib.rs:184-206 | after an agent request with a prompt's id, the response to that prompt delivers nothing |
| `BuzzDelivery.RequestDelivers` | rust/crates/acp/src/lib.rs:184-206 | a history in which an agent request delivers the text |
| `BuzzDelivery.DeliveryTracker.ObserveClient` | rust/crates/acp/src/lib.rs:148-182 | a prompt opens a fresh turn for its session |
| `BuzzDelivery.DeliveryTracker.ObserveUpdate` | rust/crates/acp/src/lib.rs:208-252 | an update changes the turn of its session, if there is one |
| `BuzzDelivery.DeliveryTracker.ObserveReply` | rust/crates/acp/src/lib.rs:184-206 | a frame with an id closes that prompt's turn and returns the delivery |
| `Capacity.AdmitKeepsWithin` | rust/crates/connect/src/capacity.rs:38-81 | with a quota of at least one, an admission keeps the table within its rows and every owner within its quota |
| `Capacity.EveryTableWithin` | rust/crates/connect/src/capacity.rs:38-81 | so does every sequence of admissions |
| `Capacity.OnlyOwnOldestEvicted` | rust/crates/connect/src/capacity.rs:46-62 | an unexpired owned row disappears only as the oldest row of its own owner, at its quota, when that owner's newcomer is admitted |
| `Capacity.OnlyOldestAnonymousEvicted` | rust/crates/connect/src/capacity.rs:63-78 | an unowned unexpired row disappears only from a full table that may drop one, as the oldest of its kind and alone |
| `Capacity.AdmittedIsStored` | rust/crates/connect/src/capacity.rs:79 | an admitted newcomer is stored under its key, and every other row left is an unexpired row as it was |
| `Capacity.RefusalRemovesNothing` | rust/crates/connect/src/capacity.rs:63-78 | a refusal removes expired rows only |
| `Capacity.RefusedExactly` | rust/crates/connect/src/capacity.rs:45-78 | a newcomer is refused exactly when unexpired rows fill the table, its owner is below quota and no anonymous row may make room |
| `Capacity.FreshKeySparesOthers` | rust/crates/connect/src/capacity.rs:79 | another owner's unexpired row survives exactly when its key is not the newcomer's or there is no room for the newcomer |
| `Capacity.TakenKeyOverwrites` | rust/crates/connect/src/capacity.rs:79 | a table and a newcomer that replaces another owner's row |
| `Capacity.ZeroQuotaIsExceeded` | rust/crates/connect/src/capacity.rs:53 | with a quota of zero an admitted owner exceeds it |
| `Capacity.OldestRows` | rust/crates/connect/src/capacity.rs:47-58 | picks the wanted number of rows, none newer than any left |
| `Capacity.AdmitRow` | rust/crates/connect/src/capacity.rs:38-81 | the procedure makes an allowed choice of rows and the specified admission |
| `RateLimiter.EarnedIsProduct` | rust/bench/src/fixture_rpc.rs:126 | tokens earned are elapsed time times rate |
| `RateLimiter.RateIsBounded` | rust/bench/src/fixture_rpc.rs:120-143 | in any stretch of a run at most burst + rate times its length are granted |
| `RateLimiter.SecondTry` | rust/bench/src/fixture_rpc.rs:126-141 | a refused caller alone succeeds on its second try exactly if it slept as long as told and the burst is at least one |
| `RateLimiter.Limiter.Try` | rust/bench/src/fixture_rpc.rs:122-136 | one locked section refills, caps and takes a token or returns the wait |
| `RateLimiter.Limiter.Acquire` | rust/bench/src/fixture_rpc.rs:120-143 | the loop returns at its first grant and takes exactly one token |
| `Correlation.EveryBook` | web-ui/api/correlation.ts:53-90 | in every run ids are unique, at most 200 flows are held, steps match status and the index points only to held flows |
| `Correlation.KeepAdd` | web-ui/api/correlation.ts:363-370 | adding and evicting keep all of that |
| `Correlation.RetriedSteps` | web-ui/api/correlation.ts:190-265 | a retry delivers exactly when it is in time and successful, and the steps follow |
| `Correlation.FinishedIsFinal` | web-ui/api/correlation.ts:72-90 | no input changes a delivered or failed flow in any field; it can only be evicted |
| `Correlation.StandaloneExactly` | web-ui/api/correlation.ts:190-204 | in every run a retry makes a flow of its own exactly when no held flow waits for payment on its path and none waits under its key |
| `Correlation.WrongFlowSettledExactly` | web-ui/api/correlation.ts:190-204 | in every run a retry settles a flow of another path exactly when such a flow waits under its key |
| `Correlation.PromiseBrokenExactly` | web-ui/api/correlation.ts:190-204 | that a retry makes its own flow exactly when none waits on its path fails if and only if none does and another path's flow waits under its key |
| `Correlation.StolenOnlyByOverlap` | web-ui/api/correlation.ts:379-381 | on rooted paths that takes an overlap of address and path, and so a slash in a client address |
| `Correlation.RetrySettlesAnotherPath` | web-ui/api/index.ts:168-177 | a challenge and a retry on rooted paths after which the wrong flow is delivered |
| `Correlation.IndexGivesLast` | web-ui/api/correlation.ts:363-370 | in every run a key's index entry is the last held flow of that key |
| `RetryOwnership.IndexedExactly` | web-ui/api/correlation.ts:363-370 | in every run the index holds for a key exactly its newest flow, and none if an older flow of that key was evicted since that one was made |
| `RetryOwnership.OtherSettledExactly` | web-ui/api/correlation.ts:190-204 | in every run a retry settles another client's flow exactly when one waits under its key, or none does and another client's waits last on its path |
| `RetryOwnership.KeyIdleExactly` | web-ui/api/correlation.ts:363-370 | while an own flow waits on the path, none waits under the key exactly when the newest flow of the key is finished or an older one was evicted since |
| `RetryOwnership.PassedOverExactly` | web-ui/api/correlation.ts:190-204 | exactly when a retry settles another client's flow although a flow of its own client waits on its path |
| `RetryOwnership.EvictionMisleads` | web-ui/api/correlation.ts:363-370 | a run in which an eviction makes it so |
| `RetryOwnership.SecondPaymentMisleads` | web-ui/api/correlation.ts:190-199 | a run of four inputs, without eviction, after which it is so |
| `Correlation.KeyIsInjective` | web-ui/api/correlation.ts:379-381 | none do among addresses without a slash |
| `Correlation.KeysSharedExactly` | web-ui/api/correlation.ts:379-381 | exactly which pairs of address and rooted path share a key: equal ones, and those where the longer address is the shorter, the separator and the front of the longer path |
| `Correlation.LastWaiting` | web-ui/api/correlation.ts:193-199 | the most recent flow waiting for payment on a path |
| `Correlation.LastSettling` | web-ui/api/correlation.ts:269-281 | the most recent x402 flow within the facilitator window |
| `Correlation.FlowCorrelation.Add` | web-ui/api/correlation.ts:363-370 | the object adds a flow, evicting the oldest beyond 200 |
| `Correlation.FlowCorrelation.CreateFlow` | web-ui/api/correlation.ts:140-186 | a challenge creates a waiting flow |
| `Correlation.FlowCorrelation.FindTarget` | web-ui/api/correlation.ts:190-199 | the lookup and the backward search find the retry's flow |
| `Correlation.FlowCorrelation.HandleRetry` | web-ui/api/correlation.ts:190-265 | a retry updates its flow or creates a delivery |
| `Correlation.FlowCorrelation.HandleFacilitator` | web-ui/api/correlation.ts:269-291 | the backward loop notes a facilitator call on its flow |
| `Correlation.FlowCorrelation.RunCleanup` | web-ui/api/correlation.ts:72-90 | the cleanup loop fails every stale waiting flow and no other |
| `FlowReplica.StepReaches` | web-ui/src/hooks/useFlows.ts:34-48 | the messages of one input turn the copy of the old list into the evicted flow followed by the new list |
| `FlowReplica.ReplicaIsExact` | web-ui/api/index.ts:206-214 | a client given a snapshot at any time and every later message holds the flows evicted since, in their last state, followed by the server's list |
| `Decimals.WrappedResult` | rust/bench/src/fixtures.rs:1386-1413 | for every input and number of decimals, what a build without overflow checks returns, its scale wrapped |
| `Decimals.DecimalIsExact` | rust/bench/src/fixtures.rs:1386-1413 | that is the exact base-unit value, and none exactly for malformed, over-precise or above-u64 input, if and only if there are at most 19 decimals, or the amount is malformed, has no whole part, or overflows the wrapped sum too |
| `Decimals.PanicsExactly` | rust/bench/src/fixtures.rs:1399-1400 | a build with overflow checks panics exactly above 19 decimals on a well-formed amount whose whole part fits |
| `Decimals.WholeAmountLost` | rust/bench/src/fixtures.rs:1399-1413 | from 64 decimals on every whole amount reads as zero |
| `Decimals.OneTokenIsLost` | rust/bench/src/fixtures.rs:1399-1413 | one token of 64 decimals reads as no base units |
| `Decimals.ParseDecimalMicroUnits` | rust/crates/cli/src/main.rs:478-516 | the digit-by-digit loop returns exactly the amount written, in millionths |
| `Decimals.ParsersAgree` | rust/crates/cli/src/main.rs:478-516 | the two parsers agree at six decimals exactly on inputs without surrounding white space and on those that, trimmed, denote no amount a u64 holds |
| `FormatUnits.ReadsBackExactly` | web-ui/src/lib/format.ts:15-41 | for every digit string, number of decimals and currency, reading back the formatted amount gives the amount exactly when it is not the largest u64 and the label is at most one word |
| `FormatUnits.LabelTail` | web-ui/src/lib/channels.ts:53-54 | what follows the amount is recognised exactly when the label, trimmed, has no white space in it |
| `FormatUnits.AmountReads` | web-ui/src/lib/channels.ts:49-57 | an amount followed by a tail reads back as itself exactly when the trimmed tail is empty or one word |
| `FormatUnits.MatchAmount` | web-ui/src/lib/channels.ts:53-54 | the pattern recognises an amount and returns its two digit groups exactly when its tail is recognised |
| `FormatUnits.SpacedLabel` | web-ui/src/lib/channels.ts:53-54 | a label with a space in its middle makes the amount unreadable |

## Left out

- Signatures, key derivation, base58, TLS and transaction building: a voucher is its amount, and a transaction its effect and last valid height.
- The on-chain programs and the RPC layer: their answers are inputs of the steps.
- File writes inside a save: one atomic replacement of the saved state, which may fail.
- Transaction fees and account rent: the ledger holds the balances the code reads and sets.
- JSON decoding of frames, headers and bodies: the models start from parsed values; the Buzz destination and the recognition of publish commands are inputs.
- The classification of HTTP exchanges into challenge, retry and facilitator call, the session details, header texts and step times of a flow; a flow's log is a count, and one cleanup pass stamps all its flows alike.
- The closed-loop driver's lanes, latency histograms and the float figures of the report: only easy members.
- The driver's counters and their merge are unbounded numbers; only the saturating additions at a worker's exit are capped, as in the source.
- The phases of the first ticks, computed in floating point: any first ticks are allowed.
- The concurrency limits of provisioning and settlement: the model allows every order, so more than the source does.
- Spending caps, reuse of open channels, and recovery after a failed run.
- Liveness after an agent disconnects, permission requests and the values of plain requests in the agent client.
- Error messages: an error is the absence of a value.
- Driver.WorkerAccounts: for periods of at least one nanosecond; a rate above 10^9 per second would round the period to zero.
- Rounding in the rate limiter: time and tokens are real numbers.
- Capacity quotas of zero: every caller passes a constant of at least one, and the results on quotas say so; `ZeroQuotaIsExceeded` shows why they must.
- FixtureSafety.TeardownReturnsEverything: also covers fixtures without token assets, which the source's configuration refuses; the model signs the funder's transaction for them too.

# Tule core, modelled and verified

Tule is a desktop harness that lets an agent propose one change to a file and lets the owner approve,
dispatch, reconcile and resume it. This project models the parts of its Rust core whose correctness
depends on the order of many calls, or on bytes that must be read back as they were written, and proves
what they promise. `dafny verify dfyconfig.toml` checks everything.

## What is modelled

**The run journal** (`RunRecords`, `Lifecycle`, `RunStore`, `RunRepository`). A run is an append-only log
of events, a table of effects, a table of capability grants, checkpoints and one root lease. `Compute` is
the first half of a use case, from a snapshot to an intent; `Commit` is what the repository does with the
intent. `MemoryRunRepository` updates its state in place and every method is proved equal to `Commit`;
the use-case methods are proved equal to reading and committing.

**Interleavings** (`Protocol`, `JournalInvariants`, `JournalPreservation`, `JournalCommits`, `JournalTheorems`,
`JournalAudit`, `LeaseHistory`, `RaceWitnesses`, `RaceConditions`). Any number of
calls is in progress at once. A call reads its snapshot in one step and persists in a later one; a dispatch
consumes budget, reads and persists in three; any call may be lost in between. The claim keeps the order of
the source: it marks the effect first and looks at the sequence afterwards, so a claim that loses on
sequence leaves a claimed effect without an event. `Inv` is the invariant of all reachable states, and the
log-and-table part of it is stated so that such orphans are allowed. `SerialRuns` is the same system when
every use case runs alone; a serial run is proved to be one of the interleavings, and there the stronger
statements (the log determines the table, budget is conserved) hold. `CallOutcomes` says what each use case
answers and leaves behind when it runs alone on any reachable run, and `InterleavedOutcomes` what a commit means
among others, both in terms of phases, claimants, probes, counts and times only.

**The broker** (`Broker`, `BrokerSafety`, `BrokerTheorems`, `BrokerAuthority`, `BrokerSteps`). Create-or-replace prepares, claims, dispatches,
writes the file and settles. A crash or an early return may follow every single step, other calls of every
kind go on beside it, and the write leaves the postimage when it succeeds and anything when it fails.

**Encodings** (`Canonical`, `HashedRecords`, `GraphEncoding`, `Decimal`, `Text`, `MemberOrder`,
`FolderFraming`, `Sources`). Hashes are a function parameter; the statements are about the buffers.

**Bootstrap proposals** (`Substrings`, `Bootstrap`) and **resume** (`Resume`).

**Agent conversations** (`AgentRecords`, `AgentStore`, `AgentRepository`, `AgentInvariants`,
`AgentTheorems`, `AgentHistory`, `AgentRecovery`, `AgentContext`, `AgentOutcomes`, `AgentSends`): sessions, turns, attached sources and their
events, the context a send hands over, and start-up recovery.

Identifiers are numbers taken from a counter, so they are new when the source generates a UUID. Times are
arguments. Text is a sequence of Unicode scalar values measured by its UTF-8 length; code-point order is
used for names, which is the order of their UTF-8 bytes.

## What turned out not to hold, and exactly when it does

* A claim can be in the table without an event (`RaceWitnesses.PauseOverOrphanedClaim`). A claim leaves no
  event exactly when the log moved on since it read and its effect is still unclaimed
  (`RaceConditions.OrphanExactly`), and a whole run has an event for every claim exactly when no claim was
  persisted in that situation (`RaceConditions.ClaimsLoggedExactly`).
* A preparation can be committed on a run that is held: exactly when the run is not stopped and a losing claim
  marked an effect after the preparation read (`InterleavedOutcomes.PreparationsSawFreeRuns`).
* A pause or a cancellation can be committed over a claimed effect (the same witness). It commits over a
  quiescent table exactly when the effects are still those it read (`RaceConditions.StopQuietExactly`).
* A revocation writes back the budget it read, so the revoked record can claim more than is left
  (`RaceWitnesses.StaleRevocation`); by how much is `JournalTheorems.RevocationOverstates`. The records of a
  whole run add up exactly when no revocation was committed over a dispatch taken since it read
  (`RaceConditions.BudgetAddsUpExactly`). The grant is revoked, so no further dispatch comes of it.
* A checkpoint can stand over an unknown effect in a cancelled run (`RaceWitnesses.CheckpointOverUnknown`). It
  stands over effects at rest exactly when none is unknown, and one can be unknown only in a stopped run
  (`JournalAudit.CheckpointIsQuietExactly`).
* A resume without any checkpoint continues without looking at the effects, over a committed replacement too
  (`Resume.ContinuesOverCommitted`); over a committed replacement it continues exactly when there is no
  checkpoint (`Resume.ContinueOverCommittedExactly`), and in general as `Resume.ContinueExactly` says.
* The length prefix is cast to 32 bits, so long values collide (`Canonical.LongValuesCollide`). The encoding is
  injective below a bound exactly when the bound is at most 2^32 (`Canonical.LimitExactly`).
* With a repeated member name the framed text of a folder depends on the order of the input
  (`FolderFraming.RepeatedNamesKeepOrder`). The order is hidden exactly when members of one name are equal
  (`FolderFraming.OrderHiddenExactly`).
* Framing the members a text parses to need not give the text back: a length may be written with leading zeros
  or a plus, and members in any order. It does exactly when they stand in order of their names with every length
  printed the shortest way (`FolderFraming.ReframedExactly`).

## Model

| member | source | states |
|---|---|---|
| Lifecycle.DeriveLifecycle | crates/tule-core/src/run.rs:907-998 | the loop over the log with its outer and inner tests computes the lifecycle function `Derive` |
| Lifecycle.TestsCoincide | crates/tule-core/src/run.rs:907-921 | on well-shaped records the outer and the inner test on the effects are the same test, and both say that some effect is unresolved |
| Lifecycle.BlockedExactly | crates/tule-core/src/run.rs:907-998 | if the table agrees with the settlements in the log, the lifecycle is blocked exactly when an effect is unresolved and nobody cancelled or abandoned the run, and is the plain fold of the log when none is, so the last re-check never decides |
| Lifecycle.FoldExactly | crates/tule-core/src/run.rs:907-998 | without folding: a log gives the state its last state-naming event names, or created if none does; a run not yet going is set going by any grant or effect event behind that, and no other event counts |
| RunStore.CommitAppendsOrDrifts | crates/tule-core/src/run_use_cases.rs:1225-1238 | the exact-next check is a compare-and-swap: a commit appends its one event at the next sequence, or leaves the log alone and at most claims a prepared effect |
| RunStore.ConsumeDrifts | crates/tule-core/src/run_use_cases.rs:1420-1440 | taking budget changes neither log nor effects |
| RunRepository.MemoryRunRepository.AppendChecked | crates/tule-core/src/run_use_cases.rs:1225-1238 | appends the event in place exactly when it is next, and changes nothing otherwise |
| RunRepository.MemoryRunRepository.PersistClaim | crates/tule-core/src/run_use_cases.rs:1356-1378 | marks the effect claimed before the sequence check, as `CommitClaim` says, so a losing claim stays |
| RunRepository.MemoryRunRepository.PersistPreparedEffect | crates/tule-core/src/run_use_cases.rs:1342-1354 | in place, the same state and error as `Commit` |
| RunRepository.MemoryRunRepository.PersistEffect | crates/tule-core/src/run_use_cases.rs:1380-1418 | in place, the same state and error as `Commit` for dispatched and settled effects |
| RunRepository.MemoryRunRepository.ConsumeDispatchBudget | crates/tule-core/src/run_use_cases.rs:1420-1440 | takes one dispatch from a live grant with budget, in place, and appends no event |
| RunRepository.MemoryRunRepository.PersistGrantRevocation | crates/tule-core/src/run_use_cases.rs:1316-1330 | overwrites the whole grant record, in place |
| RunRepository.MemoryRunRepository.PersistQuiescentCheckpoint | crates/tule-core/src/run_use_cases.rs:1442-1456 | checks quiescence of the present table again, then stores, in place |
| RunRepository.MemoryRunRepository.PersistLease | crates/tule-core/src/run_use_cases.rs:1486-1499 | refuses an unexpired lease, in place |
| RunRepository.PrepareEffectCall | crates/tule-core/src/run_use_cases.rs:249-297 | the use case run alone is `Whole`: compute on the snapshot, commit the intent; what that comes to is `CallOutcomes.PrepareOutcome` |
| RunRepository.ClaimEffectCall | crates/tule-core/src/run_use_cases.rs:300-331 | the same for a claim (`ClaimOutcome`) |
| RunRepository.DispatchEffectCall | crates/tule-core/src/run_use_cases.rs:333-369 | the same for a dispatch, which takes its budget before it reads (`DispatchOutcome`) |
| RunRepository.SettleEffectCall | crates/tule-core/src/run_use_cases.rs:372-405 | the same for a settlement (`SettleOutcome`) |
| RunRepository.ReconcileEffectCall | crates/tule-core/src/run_use_cases.rs:408-440 | the same for a reconciliation (`ReconcileOutcome`) |
| RunRepository.CheckpointCall | crates/tule-core/src/run_use_cases.rs:443-493 | the same for a checkpoint (`CheckpointOutcome`) |
| RunRepository.StopCall | crates/tule-core/src/run_use_cases.rs:570-632 | the same for pause and cancel (`PauseOutcome` and `CancelOutcome`) |
| RunRepository.RevokeGrantCall | crates/tule-core/src/run_use_cases.rs:169-195 | the same for a revocation (`RevokeOutcome`) |
| RunRepository.AcquireLeaseCall | crates/tule-core/src/run_use_cases.rs:677-709 | the same for taking the lease (`AcquireOutcome`) |
| RunRepository.TakeoverLeaseCall | crates/tule-core/src/run_use_cases.rs:739-779 | the same for a takeover (`TakeoverOutcome`) |
| CallOutcomes.HeldIsBlocked | crates/tule-core/src/run.rs:907-998 | on sound runs blocked means: some effect is claimed, dispatched or unknown and the log holds no cancellation and no abandonment |
| CallOutcomes.PrepareOutcome | crates/tule-core/src/run_use_cases.rs:249-297 | the call answers that the run is blocked and changes nothing if and only if the run is so held; otherwise the table gains exactly one prepared effect with the given operation, target and grant, and the log its event |
| CallOutcomes.ClaimOutcome | crates/tule-core/src/run_use_cases.rs:300-331 | a claim succeeds if and only if the effect is prepared, and makes the caller its claimant |
| CallOutcomes.DispatchOutcome | crates/tule-core/src/run_use_cases.rs:333-369 | with a grant that pays, a dispatch succeeds if and only if the effect is claimed and the caller names its claimant; another claimant is told so, and log and effects stay as they are |
| CallOutcomes.UnpaidDispatch | crates/tule-core/src/run_use_cases.rs:333-369 | a revoked, expired or exhausted grant refuses a dispatch and nothing at all changes |
| CallOutcomes.SettleOutcome | crates/tule-core/src/run_use_cases.rs:372-405 | a settlement succeeds if and only if the effect is dispatched, the caller names its claimant and it does not make an error or a cancellation say that nothing happened; otherwise it names what is wrong and changes nothing |
| CallOutcomes.ReconcileOutcome | crates/tule-core/src/run_use_cases.rs:408-440 | a reconciliation succeeds if and only if the effect is settled and unknown, and then records committed exactly for the postimage, no effect exactly for the preimage and unknown exactly for neither |
| CallOutcomes.CheckpointOutcome | crates/tule-core/src/run_use_cases.rs:443-493 | a checkpoint is refused exactly over an effect in flight or over an unknown one of a run not stopped; otherwise it covers the whole log |
| CallOutcomes.SafeBoundaryExactly | crates/tule-core/src/run.rs:1002-1009 | the boundary pause and cancel demand, in terms of effects at rest and of what the log folds to |
| CallOutcomes.PauseOutcome | crates/tule-core/src/run_use_cases.rs:570-632 | a pause goes through exactly at that boundary and logs itself |
| CallOutcomes.CancelOutcome | crates/tule-core/src/run_use_cases.rs:570-632 | so does a cancellation |
| CallOutcomes.IssueOutcome | crates/tule-core/src/run_use_cases.rs:126-167 | a grant is issued exactly with a budget, live for its capability's time, with all of the budget left |
| CallOutcomes.RevokeOutcome | crates/tule-core/src/run_use_cases.rs:169-195 | a grant is revoked exactly once, at the time given and with its remaining budget kept |
| CallOutcomes.AcquireOutcome | crates/tule-core/src/run_use_cases.rs:677-709 | the lease is taken, for thirty seconds, exactly when none is held that has not expired |
| CallOutcomes.ReleaseOutcome | crates/tule-core/src/run_use_cases.rs:712-737 | a release drops whatever lease there is |
| CallOutcomes.TakeoverOutcome | crates/tule-core/src/run_use_cases.rs:739-779 | a takeover goes through exactly when the owner is gone and, over a held lease, no effect is unresolved |
| JournalCommits.StepKeeps | crates/tule-core/src/run_use_cases.rs:249-440 | every step of every call keeps the journal invariant |
| JournalCommits.RunKeeps | crates/tule-core/src/run_use_cases.rs:249-440 | the invariant holds after every sequence of steps, in every interleaving of any number of calls |
| JournalInvariants.PersistsFromCurrent | crates/tule-core/src/run_use_cases.rs:333-440 | no lost update: a claim, dispatch, settlement or reconciliation that persists applied the record's own transition to the record as it stands at that moment, and changed nothing else |
| JournalInvariants.RevokesFromCurrent | crates/tule-core/src/run_use_cases.rs:169-195 | a revocation that persists replaces the present, unrevoked grant, except that it writes the budget it read |
| JournalInvariants.CommittedOnSnapshot | crates/tule-core/src/run_use_cases.rs:1225-1238 | when a commit goes through, nothing was logged since its call read: the present run differs from the snapshot by losing claims and consumed budget only |
| InterleavedOutcomes.CommittedClaim | crates/tule-core/src/run_use_cases.rs:300-331 | in every interleaving a claim that commits found its effect prepared and makes the caller its claimant |
| InterleavedOutcomes.CommittedDispatch | crates/tule-core/src/run_use_cases.rs:333-369 | in every interleaving a dispatch that commits was requested under the claimant that the table and the claim event record |
| InterleavedOutcomes.CommittedSettlement | crates/tule-core/src/run_use_cases.rs:372-405 | so was a settlement, and it records exactly the result and the certainty it was given |
| InterleavedOutcomes.CommittedReconciliation | crates/tule-core/src/run_use_cases.rs:408-440 | in every interleaving a reconciliation that commits records committed, no effect or unknown if and only if the probe found the postimage, the preimage or neither |
| InterleavedOutcomes.UnblockedExactly | crates/tule-core/src/run_use_cases.rs:408-440 | reconciling the only unresolved effect of a run not stopped unblocks it if and only if the probe matched one of the two hashes |
| InterleavedOutcomes.PrepareReadExactly | crates/tule-core/src/run_use_cases.rs:249-297 | a preparation gets past its reading if and only if the run is not held |
| InterleavedOutcomes.PreparationsSawFreeRuns | crates/tule-core/src/run_use_cases.rs:249-297 | the snapshot of every preparation that commits had no unresolved effect or was stopped; the run it commits on is held exactly when it is not stopped and a losing claim marked an effect since |
| JournalTheorems.StepAdvances | crates/tule-core/src/run.rs:2194-2268 | one step moves an effect by at most one phase |
| JournalTheorems.NothingIsLost | crates/tule-core/src/run_use_cases.rs:333-440 | between any two moments of any interleaving no phase falls back, no claimant, result or confirmed certainty is overwritten, no revocation is undone, and log and checkpoints only grow |
| JournalTheorems.BudgetHolds | crates/tule-core/src/run_use_cases.rs:333-369 | a grant is consumed at most as often as its budget allows, effects started under it are no more than its consumptions, and until a revocation the remaining count is exact |
| JournalTheorems.StartedIsCounted | crates/tule-core/src/run_use_cases.rs:333-369 | the effects counted there are exactly those the table shows dispatched or settled |
| JournalTheorems.RevocationOverstates | crates/tule-core/src/run_use_cases.rs:1316-1330 | a revoked record overstates its remaining budget by exactly the dispatches taken between the revocation's read and its commit |
| JournalAudit.SettlementsAgree | crates/tule-core/src/run_use_cases.rs:372-440 | each effect's certainty is that of its last settlement in the log |
| JournalAudit.BlockedExactlyWhenUnresolved | crates/tule-core/src/run.rs:907-998 | on every reachable run the lifecycle is blocked exactly when an effect is claimed, dispatched or unknown and the run was not cancelled or abandoned; otherwise it is the fold of the log |
| JournalAudit.CheckpointIsQuietExactly | crates/tule-core/src/run_use_cases.rs:443-493 | a checkpoint that goes through finds every effect prepared or confirmed if and only if none is unknown, and one can be unknown only in a stopped run |
| JournalAudit.CheckpointsStandAtRest | crates/tule-core/src/run.rs:1002-1009 | in the log of every interleaving, each checkpoint of a run not yet stopped has before it, for every effect, a preparation only or a confirmed settlement |
| JournalAudit.NoEffectIsEvidenced | crates/tule-core/src/run.rs:2225-2268 | no effect after an error or a cancellation always comes from a reconciliation that found the preimage, at a step of the run that is returned |
| JournalAudit.CheckpointsNeverStale | crates/tule-core/src/run_use_cases.rs:463-477 | in every later state, the events selected by a checkpoint's last sequence are the prefix that was chained, and their chain is the stored one |
| LeaseHistory.AcquisitionsAreSpaced | crates/tule-core/src/run_use_cases.rs:677-709 | with no release and no takeover between, k acquisitions span at least k - 1 full lease times, whatever the interleaving |
| LeaseHistory.TakeoverIsSafe | crates/tule-core/src/run_use_cases.rs:739-779 | a held lease is taken over only with its owner gone and, in the snapshot it was decided on, no unresolved effect; since then only losing claims can have happened |
| SerialRuns.SerialIsInterleaved | crates/tule-core/src/run_use_cases.rs:249-493 | running use cases one after the other is one of the interleavings |
| SerialRuns.WholeIsSerial | crates/tule-core/src/run_use_cases.rs:249-493 | the imperative use cases take exactly these serial steps |
| SerialRuns.LogDeterminesTable | crates/tule-core/src/run_use_cases.rs:1356-1418 | in a serial run, replaying an effect's own events gives back its phase, claimant and certainty |
| SerialRuns.BudgetIsConserved | crates/tule-core/src/run_use_cases.rs:1420-1440 | in a serial run, what is left of a grant and what was taken from it add up to its budget, before and after a revocation |
| SerialRuns.SerialNeverLoses | crates/tule-core/src/run_use_cases.rs:1225-1238 | a serial use case never fails on sequence; when it fails, the run is as it was, except that a dispatch keeps the budget it took |
| SerialRuns.SerialTakeoverIsSafe | crates/tule-core/src/run_use_cases.rs:739-779 | in a serial run a held lease changes hands only with every effect at rest |
| RaceWitnesses.PauseOverOrphanedClaim | crates/tule-core/src/run_use_cases.rs:1372-1376 | a concrete interleaving in which a losing claim stays claimed without an event and a pause commits over it |
| RaceWitnesses.StaleRevocation | crates/tule-core/src/run_use_cases.rs:1316-1330 | a concrete interleaving in which a revoked grant shows its full budget although a dispatch was taken |
| RaceWitnesses.CheckpointOverUnknown | crates/tule-core/src/run.rs:1002-1009 | a concrete serial run that is cancelled and then checkpointed over an unknown effect |
| RaceWitnesses.CommittedWithoutCheckpoint | crates/tule-core/src/run_use_cases.rs:126-405 | a concrete serial run (issue, prepare, claim, dispatch, settle) that holds a committed replacement and no checkpoint |
| RaceConditions.OrphanExactly | crates/tule-core/src/run_use_cases.rs:1372-1376 | in every invariant state, a claim changes the table and leaves the log alone if and only if the log has moved on since it read and its effect is still prepared |
| RaceConditions.StepOrphansExactly | crates/tule-core/src/run_use_cases.rs:1356-1378 | after one step every claim has its event if and only if that was so before and the step was no such claim |
| RaceConditions.ClaimsLoggedExactly | crates/tule-core/src/run_use_cases.rs:1356-1378 | over whole interleavings, every claim in the table has its event in the log if and only if no such claim was ever persisted |
| RaceConditions.StopQuietExactly | crates/tule-core/src/run_use_cases.rs:570-632 | a committed pause or cancellation stands over a quiescent table if and only if the effects are those its call read |
| RaceConditions.StepBalanceExactly | crates/tule-core/src/run_use_cases.rs:1316-1330 | after one step all grants add up if and only if they did before and the step was no revocation over a later dispatch |
| RaceConditions.BudgetAddsUpExactly | crates/tule-core/src/run_use_cases.rs:169-195 | over whole interleavings, what is left of every grant and what was taken from it add up to its budget if and only if no revocation was committed over a dispatch taken since it read |
| Broker.EffectFate | crates/tule-core/src/run_use_cases.rs:1356-1418 | in one step an effect stays as it is, is claimed by a claim that lost, or moves by its own transition for a request that names it |
| Broker.EffectPersists | crates/tule-core/src/run_use_cases.rs:1380-1418 | effects stay in the table, and a dispatched one stays exactly as it is until it is settled |
| BrokerTheorems.PlayKeeps | apps/desktop/src-tauri/src/operation_broker.rs:273-375 | the broker's safety invariant holds after every sequence of moves, early returns, crashes and steps of other calls |
| BrokerTheorems.WriteAheadAndOnce | apps/desktop/src-tauri/src/operation_broker.rs:300-345 | a prepared or claimed effect never had its write attempted, and no effect is written twice |
| BrokerTheorems.SettledAfterWriting | apps/desktop/src-tauri/src/operation_broker.rs:346-369 | a replacement is settled only after its write was attempted, and as a success if and only if the write returned success |
| BrokerTheorems.CommittedIsEvidenced | apps/desktop/src-tauri/src/operation_broker.rs:358-369 | a replacement recorded as committed was written with success, or some move reconciled it and found the postimage |
| BrokerTheorems.WritesWithinBudget | apps/desktop/src-tauri/src/operation_broker.rs:329-337 | over any number of calls, crashes and retries, writes under one stored grant never exceed its budget |
| BrokerTheorems.UncertainWriteBlocks | apps/desktop/src-tauri/src/operation_broker.rs:338-359 | at every moment, also right after a crash, an attempted write is confirmed, or blocks the whole run unless somebody stopped it |
| BrokerTheorems.FileUntouchedUntilDispatched | apps/desktop/src-tauri/src/operation_broker.rs:329-345 | the file is as it was found, or some replacement the journal shows dispatched had its write attempted |
| BrokerTheorems.FileIsLastWrite | apps/desktop/src-tauri/src/operation_broker.rs:338-359 | after the last write the file is what it left: the postimage of its own order if it succeeded |
| BrokerTheorems.BrokerSettlesExactly | apps/desktop/src-tauri/src/operation_broker.rs:338-369 | a settlement of the broker that commits records success and committed after a write that succeeded, and error and unknown after one that failed |
| BrokerAuthority.AllowsExactly | crates/tule-core/src/capability.rs:577-612 | a grant allows a use if and only if capability, registered operation, resource, scope and pair are its own and it is unrevoked, unexpired and has budget |
| BrokerAuthority.DenialIsTrue | crates/tule-core/src/capability.rs:577-612 | the reason of a denial is a fact about the grant, and revocation, expiry and budget are named only of a grant that covers the use |
| BrokerAuthority.StartExactly | apps/desktop/src-tauri/src/operation_broker.rs:273-321 | an order that differs from its grant in relative target, either hash, node, pair or life starts no call and leaves the world unchanged; one that agrees in all is taken up, and becomes a call exactly when the run is not held |
| BrokerAuthority.WritesAreAuthorised | apps/desktop/src-tauri/src/operation_broker.rs:273-345 | over every sequence of moves each attempted write belongs to an order started under a grant for exactly its relative target, both hashes, the replacement node and its pair, unrevoked, unexpired and with budget at the order's time |
| BrokerAuthority.WritesItsOrder | apps/desktop/src-tauri/src/operation_broker.rs:338-359 | what a successful write put into the file is the postimage of that order |
| BrokerSteps.PersistsOnward | apps/desktop/src-tauri/src/operation_broker.rs:300-369 | a broker call reaches its next stage exactly when its own preparation, claim or dispatch was logged, and otherwise ends with the log as it was |
| BrokerSteps.PaysOnward | apps/desktop/src-tauri/src/operation_broker.rs:329-337 | between claim and dispatch the call goes on exactly when its grant pays at the order's time, and takes one dispatch |
| BrokerSteps.DispatchesOnward | apps/desktop/src-tauri/src/operation_broker.rs:329-337 | having paid, it goes on exactly when the effect is claimed by the broker |
| BrokerSteps.SettlesOnward | apps/desktop/src-tauri/src/operation_broker.rs:346-369 | having written, it settles exactly when the dispatched effect carries the broker's claim |
| Canonical.BigEndianRoundTrip | crates/tule-core/src/run.rs:257-263 | reading the written bytes back gives the number reduced to the written width |
| Canonical.EncodingInjective | crates/tule-core/src/run.rs:257-263 | equal buffers come from equal field lists, for names and values shorter than 2^32 bytes |
| Canonical.LongValuesCollide | crates/tule-core/src/run.rs:257-263 | at exactly 2^32 bytes the statement fails: a value of zeros equals no value followed by 2^29 blank fields |
| Canonical.LimitExactly | crates/tule-core/src/run.rs:257-263 | the encoding is injective on names and values below a bound if and only if the bound is at most 2^32 |
| Canonical.VersionedInjective | crates/tule-core/src/run.rs:270-281 | the same under the version field |
| Canonical.Buffer.AppendField | crates/tule-core/src/run.rs:257-263 | appends one encoded field to the buffer in place |
| Canonical.HashCanonicalFields | crates/tule-core/src/run.rs:270-281 | the loop hashes the versioned encoding of the fields, in their order |
| HashedRecords.HashEventChain | crates/tule-core/src/run.rs:2614-2627 | the loop hashes the chain buffer of the events |
| HashedRecords.PlainTextIsIdText | crates/tule-core/src/run.rs:78-82 | a printed form of 128-bit identifiers as the next rows ask for, never the same for two of them, exists |
| HashedRecords.RunChainsEncodable | crates/tule-core/src/run.rs:2614-2627 | the events of every run within its machine widths are links the next rows speak of |
| HashedRecords.ChainInjective | crates/tule-core/src/run.rs:2614-2627 | equal chain buffers mean equal sequence numbers, identifiers and kind tags |
| HashedRecords.AlteredPrefixShows | apps/desktop/src-tauri/src/harness.rs:784-790 | two logs have equal chain buffers if and only if they agree on every link |
| HashedRecords.BuffersAgreeExactly | crates/tule-core/src/run.rs:2614-2627 | chain buffers of two logs are equal if and only if the logs agree on every sequence number, identifier and kind of event: no two kinds share a tag |
| HashedRecords.ResumeComparisonHolds | apps/desktop/src-tauri/src/harness.rs:784-790 | for every checkpoint of every run and whatever the hash function, hashing the selected events gives the stored hash |
| HashedRecords.EnvelopeInjective | crates/tule-core/src/run.rs:1074-1083 | the envelope bytes determine the summary and the requested capabilities in order |
| HashedRecords.ApprovalInjective | crates/tule-core/src/run.rs:2548-2610 | approval buffers are equal if and only if every covered value is, the nested envelope included |
| GraphEncoding.GraphInjective | crates/tule-core/src/run.rs:1466-1511 | graph buffers are equal if and only if nodes, optional models, edges and both rules are, though counts are not encoded |
| GraphEncoding.HashGraphContent | crates/tule-core/src/run.rs:1466-1511 | the loops over nodes and edges hash exactly that buffer |
| GraphEncoding.EncodeNode | crates/tule-core/src/run.rs:1473-1493 | the inner buffer of a node is the encoding of its fields, with the model only when one is assigned |
| Decimal.PrintParse | crates/tule-core/src/agent_source.rs:553-586 | printing a length and parsing it as a machine word undo each other |
| Decimal.ParseExactly | crates/tule-core/src/agent_source.rs:582-586 | parsing accepts exactly the numerals of machine words, with at most one plus in front, and gives the number they write |
| Text.BoundaryExactly | crates/tule-core/src/agent_source.rs:566-594 | a byte offset is a boundary exactly when a prefix has that many bytes, and the prefix is the one found |
| MemberOrder.SortIsStable | crates/tule-core/src/agent_source.rs:547-548 | sorting orders by name and keeps members of one name in input order |
| MemberOrder.StableSortUnique | crates/tule-core/src/agent_source.rs:547-548 | any other stable sort by name gives the same list |
| FolderFraming.FrameFolderMembers | crates/tule-core/src/agent_source.rs:546-559 | the loop frames the members in sorted order |
| FolderFraming.CountFolderMembers | crates/tule-core/src/agent_source.rs:562-607 | the loop over byte offsets terminates, never cuts a character, and gives the count or the error of the recursive parser |
| FolderFraming.FolderRoundTrip | crates/tule-core/src/agent_source.rs:546-607 | parsing the framed text of valid members gives back exactly the members in stable order; an empty list is refused |
| FolderFraming.ParsesExactly | crates/tule-core/src/agent_source.rs:562-607 | a text parses if and only if it is one or more members one behind the other, each with a safe name, a numeral that writes the length of its body and a body within bounds, and then to these members |
| FolderFraming.ReframedExactly | crates/tule-core/src/agent_source.rs:546-607 | framing parsed members again gives the text back if and only if they stood in order of their names with every length printed the shortest way |
| FolderFraming.FrameInjective | crates/tule-core/src/agent_source.rs:546-559 | equal framed texts if and only if equal sorted members |
| FolderFraming.FrameIgnoresOrder | crates/tule-core/src/agent_source.rs:547-548 | with distinct names the input order does not matter |
| FolderFraming.RepeatedNamesKeepOrder | crates/tule-core/src/agent_source.rs:547-548 | with a repeated name and different bodies it does |
| FolderFraming.OrderHiddenExactly | crates/tule-core/src/agent_source.rs:547-548 | for a valid folder, no reordering changes the text if and only if members of one name are equal |
| Sources.RebuildExactly | crates/tule-core/src/agent_source.rs:184-274 | rebuilding from its own fields accepts exactly the canonical sources and changes nothing about them |
| Sources.StoredPartsCanonical | crates/tule-core/src/agent_source.rs:184-274 | whatever stored fields are accepted, the source is canonical and keeps them |
| Sources.StoredPartsExactly | crates/tule-core/src/agent_source.rs:184-274 | stored fields are accepted if and only if they are those of a canonical source, a missing member count standing for one and no folder lacking it |
| Sources.RefusalIsTold | crates/tule-core/src/agent_source.rs:184-274 | the reason stored fields are refused for is a fact about them |
| Sources.UrlExactly | crates/tule-core/src/agent_source.rs:435-464 | a link is accepted if and only if it is https, a host that is not empty and perhaps a path, query or fragment, without user part and control characters, of at most 2048 bytes |
| Sources.TextExactly | crates/tule-core/src/agent_source.rs:86-139 | a file or a link becomes a source if and only if its name is safe, its text within 64 KiB without NUL and its address a link, and is held unchanged |
| Sources.FolderExactly | crates/tule-core/src/agent_source.rs:141-180 | a folder becomes a source if and only if its name is safe, it has 1 to 32 valid members and their framed text is within 64 KiB; the frame never holds a NUL |
| Sources.FileRoundTrip | crates/tule-core/src/agent_source.rs:86-110 | a source made from a file is rebuilt identically |
| Sources.LinkRoundTrip | crates/tule-core/src/agent_source.rs:112-139 | a source made from a link is rebuilt identically |
| Sources.FolderRebuilt | crates/tule-core/src/agent_source.rs:141-180 | a source made from a folder is rebuilt identically, its members counted again |
| Sources.FolderMembersKept | crates/tule-core/src/agent_source.rs:141-180 | the stored text of a folder parses to its members in stable order |
| Substrings.CountOccurrences | crates/tule-core/src/run.rs:397-408 | the loop counts non-overlapping matches |
| Substrings.CountIsPositions | crates/tule-core/src/run.rs:397-408 | for a needle that cannot overlap itself, that count is the number of positions at which it matches |
| Bootstrap.HeadingExactly | crates/tule-core/src/run.rs:448-468 | the heading checks pass exactly when preimage and postimage differ in one heading and the heading stands nowhere else |
| Bootstrap.PayloadExactly | crates/tule-core/src/run.rs:425-446 | a payload is refused exactly for a patch or script word or a path instruction it holds in any case, or a frame mark it holds, and told which kind |
| Bootstrap.AcceptedExactly | crates/tule-core/src/run.rs:415-469 | a proposal is accepted exactly for the right target, bounded texts, no foreign payload and a single change |
| Bootstrap.RefusalIsTold | crates/tule-core/src/run.rs:415-469 | the reason a proposal is refused for is a fact about it |
| Bootstrap.ChangeUnique | crates/tule-core/src/run.rs:448-468 | the text before and behind the heading is unique |
| Bootstrap.AcceptedOnlyOnce | crates/tule-core/src/run.rs:415-469 | an accepted postimage has no old heading and one new one, and is rejected as a new preimage |
| Bootstrap.ValidateBootstrapProposal | crates/tule-core/src/run.rs:415-469 | the validator as it runs, check by check, gives the specified verdict |
| Resume.ChainNeverObjects | apps/desktop/src-tauri/src/harness.rs:777-790 | on a run's own log the chain comparison never stops a resume |
| Resume.ContinueExactly | crates/tule-core/src/run.rs:3219-3240 | exactly when a resume continues: no checkpoint, or every outside check passes, no committed replacement and no unusable grant |
| Resume.DecidesExactly | crates/tule-core/src/run.rs:3219-3240 | for a checkpointed run: a new approval exactly when something outside changed, else the first committed replacement is skipped, else a fresh grant replaces the first revoked or expired one, else the run goes on |
| Resume.ContinueOverCommittedExactly | apps/desktop/src-tauri/src/harness.rs:781-783 | a run with a committed replacement is continued if and only if it has no checkpoint |
| Resume.ContinuesOverCommitted | apps/desktop/src-tauri/src/harness.rs:781-783 | a concrete run with a committed replacement that is continued, whatever the outside checks, hash and time |
| Resume.CommittedIsNeverRepeated | crates/tule-core/src/run_use_cases.rs:634-658 | once a checkpointed run holds a committed replacement, every later resume skips it or demands a new approval |
| AgentRecords.ValidatedModelIsFixed | crates/tule-core/src/provider_catalog.rs:116-133 | an accepted model identifier is accepted unchanged again |
| AgentRecords.ModelIdExactly | crates/tule-core/src/provider_catalog.rs:116-133 | an identifier is accepted as what stands between the spaces around it, if and only if that is not empty, at most 128 bytes and of permitted characters |
| AgentContext.FrameUnambiguous | crates/tule-core/src/agent_source.rs:528-543 | for one user text, formatted texts are equal if and only if the attached sources are, so content cannot move the frame |
| AgentContext.CanonicalFramable | crates/tule-core/src/agent_source.rs:86-180 | every canonical source can be framed so |
| AgentContext.BuildAgentRequestContext | crates/tule-core/src/agent.rs:981-1015 | the loop with its saturating size gives the specified context or error |
| AgentContext.RefusedExactly | crates/tule-core/src/agent.rs:981-1015 | a context is refused if and only if its whole text has more bytes than the ceiling; saturation never hides that |
| AgentRepository.PrepareAgentSend | crates/tule-core/src/agent_use_cases.rs:40-210 | the in-place use case gives the specified store, turn and request context, error by error in the source's order, with effort, attached source and the context ceiling |
| AgentRepository.CollectHistory | crates/tule-core/src/agent_use_cases.rs:428-450 | keeps the completed turns, each with the first source attached to it |
| AgentRepository.ApplyAgentDelta | crates/tule-core/src/agent_use_cases.rs:224-276 | the same for a delta, with the output ceiling and the first-delta event |
| AgentRepository.CompleteAgentTurn | crates/tule-core/src/agent_use_cases.rs:292-313 | the same for a completion (`AgentOutcomes.CompletesExactly`) |
| AgentRepository.CancelAgentTurn | crates/tule-core/src/agent_use_cases.rs:316-329 | the same for a cancellation (`AgentOutcomes.CancelsExactly`) |
| AgentRepository.FailAgentTurn | crates/tule-core/src/agent_use_cases.rs:332-345 | the same for a failure (`AgentOutcomes.FailsExactly`) |
| AgentRepository.SetSessionProject | crates/tule-core/src/agent_use_cases.rs:348-377 | the same for a change of project (`AgentOutcomes.AssociatesExactly`) |
| AgentRepository.StoreTerminal | crates/tule-core/src/agent_use_cases.rs:464-486 | session, turn and terminal event are stored with the next sequence number of the session |
| AgentRepository.InterruptInflightTurns | crates/tule-core/src/agent_use_cases.rs:380-423 | the loop with its map of cached sequence numbers gives the specified recovery, all or nothing |
| AgentRepository.Repository.FinishTurns | crates/tule-core/src/agent_use_cases.rs:1077-1106 | stores all updates or none |
| AgentTheorems.DoKeeps | crates/tule-core/src/agent_use_cases.rs:40-486 | every use case keeps the agent invariant |
| AgentTheorems.RunKeeps | crates/tule-core/src/agent_use_cases.rs:40-486 | the invariant holds in every reachable store |
| AgentTheorems.TurnEventsTellState | crates/tule-core/src/agent_use_cases.rs:464-486 | a turn's own events are pending, then streaming if text arrived, then one terminal event of its own kind if and only if it is terminal |
| AgentTheorems.TextIsAccepted | crates/tule-core/src/agent.rs:762-769 | agent text is the concatenation of the accepted deltas, within the ceiling |
| AgentTheorems.SessionsHaveNoGaps | crates/tule-core/src/agent_use_cases.rs:961-967 | a session's events are numbered 0, 1, 2 and so on |
| AgentTheorems.AtMostOneInFlight | crates/tule-core/src/agent_use_cases.rs:59-64 | at most one turn is in flight over all sessions |
| AgentTheorems.EarlierTurnsFinished | crates/tule-core/src/agent_use_cases.rs:130-146 | ordinals are 0, 1, 2 and so on, and all turns of a session but the last are finished |
| AgentTheorems.ModelIsFrozen | crates/tule-core/src/agent_use_cases.rs:80-99 | every turn carries its session's profile and model, whatever a send names |
| AgentTheorems.SendsWholeHistory | crates/tule-core/src/agent_use_cases.rs:99-127 | a follow-up hands over exactly the completed turns of its session, in ordinal order and with their sources, and the session's model |
| AgentOutcomes.CompletesExactly | crates/tule-core/src/agent_use_cases.rs:292-313 | in every store the invariant allows, completing a turn in flight makes it completed with the response identifier, touches its session and logs the completion at the session's next number; a finished turn is refused and nothing changes |
| AgentOutcomes.CancelsExactly | crates/tule-core/src/agent_use_cases.rs:316-329 | cancelling makes it cancelled with the code for that, and logs the cancellation |
| AgentOutcomes.FailsExactly | crates/tule-core/src/agent_use_cases.rs:332-345 | failing makes it failed with the given code, and logs the failure |
| AgentOutcomes.InterruptsExactly | crates/tule-core/src/agent_use_cases.rs:380-423 | recovery makes the one turn in flight interrupted with the code for that, and changes nothing when there is none |
| AgentOutcomes.UnknownTurn | crates/tule-core/src/agent_use_cases.rs:224-345 | a turn that is not stored cannot be extended or ended, and nothing changes |
| AgentOutcomes.ExtendsExactly | crates/tule-core/src/agent_use_cases.rs:224-276 | a delta is refused by a finished turn, fails one it would carry past one mebibyte, and otherwise is appended, with a streaming event exactly when it is the first text |
| AgentOutcomes.AssociatesExactly | crates/tule-core/src/agent_use_cases.rs:348-377 | changing the project changes that session's project and time, and logs one event |
| AgentOutcomes.HistoryGrows | crates/tule-core/src/agent_use_cases.rs:428-450 | the history of a session grows by exactly the user text, agent text and source of a turn that is completed, and by nothing on any other command |
| AgentOutcomes.SendsExchanges | crates/tule-core/src/agent_use_cases.rs:99-127 | over every sequence of commands, a follow-up carries exactly the exchanges completed in its session, in order |
| AgentSends.FollowUpExactly | crates/tule-core/src/agent_use_cases.rs:40-165 | a send to a session is accepted if and only if its text says something within its limit, an effort is chosen only where offered, no turn is in flight, the project is the session's, the profile is there and all of it fits; it then stores exactly one pending turn and hands over the history under the session's model |
| AgentSends.FirstSendExactly | crates/tule-core/src/agent_use_cases.rs:40-210 | a send without a session is accepted if and only if, besides, the model identifier is one and the profile is not blank; it opens the session with both and one pending turn |
| AgentSends.RefusalsAreHonest | crates/tule-core/src/agent_use_cases.rs:40-210 | the reason a send is refused for is a fact about it |
| AgentHistory.NothingIsRewritten | crates/tule-core/src/agent.rs:248-271 | later commands only extend the log, keep finished turns as they are, keep text already taken and keep session models |
| AgentHistory.SourceIsAttached | crates/tule-core/src/agent_use_cases.rs:1005-1023 | the source a send carries is the one found for its turn |
| AgentHistory.SourceStays | crates/tule-core/src/agent_use_cases.rs:1025-1051 | no command changes which source is found for a stored turn |
| AgentRecovery.PlanIsPersist | crates/tule-core/src/agent_use_cases.rs:386-414 | planning a turn with the cache and persisting it on the store reached so far come to the same update |
| AgentRecovery.BatchIsOneByOne | crates/tule-core/src/agent_use_cases.rs:380-423 | for any store, recovery in one unit equals interrupting the turns one at a time, event numbers included, and a failing recovery changes nothing |
| AgentRecovery.RecoverOnce | crates/tule-core/src/agent_use_cases.rs:380-423 | afterwards nothing is in flight, and a second recovery changes nothing |
| AgentRecovery.RecoverySucceeds | crates/tule-core/src/agent_use_cases.rs:380-423 | in every reachable store recovery succeeds |

## Left out

- One run is modelled; use cases that name a run that does not exist, the check that a grant belongs to the run, and mutex poisoning are not.
- 64-bit limits of sequence numbers, ordinals, times and budgets; they are unbounded here, and `HashedRecords` asks for sequence numbers below 2^64 and identifiers below 2^128, the machine widths, where it encodes them.
- Record fields nothing decides on: titles, display names of runs, usage counts, prompt version, provider request identifiers, attempt and node identifiers, plan and graph links of effects, and the remaining checkpoint fields.
- Freezing, approving, denying, validating and completing a run append events that the journal does not look at; they are one request here, `Note`, and their own checks are not modelled. `Abandoned` and `Resumed` events, which no use case emits, are among the notes a caller of `append_event` may add.
- SHA-256 and UUIDs: a hash is any function, a stored chain hash is represented by the chain it is taken over, and a generated identifier is the next number of a counter.
- HashedRecords.ApprovalInjective: the covered values are byte strings, so that they are the UTF-8 of some text is not used.
- The SQLite stores: the repositories modelled are the in-memory ones, whose claim marks before it checks; the database checks first.
- Effects, grants, leases and turns are values here although their methods update fields, because every use case works on a clone and stores it back.
- `RootLease::renew`: nothing stores a renewed lease.
- `local_read`, `provider_disclose` and `native_inspect` of the broker: the same protocol without a write, so they are among the other calls of `BrokerTheorems`.
- BrokerTheorems.SettledAfterWriting: takes it, like the other broker theorems, that only the broker settles create-or-replace effects, as in the application; `settle_effect` itself does not enforce it. Other callers may prepare, claim, dispatch and reconcile them.
- The file write itself and the identity and preimage checks before it: a write that succeeds leaves the postimage, one that fails leaves anything.
- The record a refused order leaves: it is a note like any other.
- The wording of the fixed instruction is an argument (`prompt`) of a send; what is proved holds for every wording.
- AgentTheorems.AtMostOneInFlight: every use case is one atomic step. In the application the check for a turn in flight and the append are separate repository calls, and the host's operation gate (`apps/desktop/src-tauri/src/agents.rs:159-179`) lets one send run at a time.
- `checkpoint_agent_turn` writes back whatever turn it is given, without any check, so it is not among the commands.
- `format_turn_user_content` over different user texts, where it is ambiguous because the user text is not length-prefixed; `derive_remote_source_display_name`; the schema-versioned graph fingerprint.
- The stable sort is a function here, not the library's algorithm; `MemberOrder.StableSortUnique` says that any stable sort gives the same.
- The user interface, commands, settings, themes, preferences, projects, artifacts, provider catalogue and streaming.

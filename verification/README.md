# Vehicle registry: a model of the database that mirrors the chain

The backend keeps tables that mirror a set of contracts. Three parties write them: services submit a transaction and
record a PENDING row, the indexer replays chain events, and the reconciliation worker sweeps PENDING rows, rolling
successful transactions forward and compensating reverted ones. All of them may die between two database writes. This
project models the three writers over one set of tables and proves what holds of their runs; beside them it models the
Gnosis Safe governance protocol and six smaller algorithms.

- `Tables.dfy`, `Chain.dfy`: rows as finite maps from columns to values, tracking rows, the contract events.
- `Indexer.dfy`, `IndexerFacts.dfy`, `Lookalikes.dfy`: what each event handler writes, as one effect; what every handler keeps.
- `Replay.dfy`, `Recovery.dfy`, `IndexerService.dfy`, `CatchUpDrift.dfy`: replay, crash recovery, the indexer as a class with
  chunked catch-up, and what its first catch-up can lose.
- `Reconciler.dfy`, `ReconcilerFacts.dfy`, `ReconciliationWorker.dfy`: the worker as functions on the tables and as a class.
- `SweepRows.dfy`, `Rollbacks.dfy`, `TransferWriters.dfy`: what sweeps, rollbacks and transfer handlers leave, column by column.
- `Writers.dfy`, `Sagas.dfy`, `Ledger.dfy`, `LedgerOwners.dfy`, `Sweep.dfy`: agreement of two writers, compensation, the
  ledger and who owns a vehicle along its runs, the cursor sweep.
- `LoanGuard.dfy`, `LoanCalls.dfy`, `Services.dfy`, `ServiceLaws.dfy`: the loan guards, with each call as one step and
  with guard and record apart, the police and bank services that feed the sagas, and what they accept from each other.
- `SafeGovernance.dfy`, `SafeSigning.dfy`, `SafeOutcomes.dfy`, `AdminService.dfy`, `SafeSignatures.dfy`: proposals from
  signing to execution, and when their statuses can be left again.
- `RefreshQueue.dfy`, `RefreshOutcomes.dfy`, `AuditLog.dfy`, `SearchEscape.dfy`, `SseIndex.dfy`, `RoleHierarchy.dfy`,
  `GroupHeaders.dfy`.

Conventions. A null column is absent from a row. Wall-clock values are the one value `Date`. Row ids are never reused.
The chain is a map of verdicts and logs. Reads of users and institutions come from a fixed directory. Wallets are ASCII.

Where comments in the source and its code differ, the code is modelled. The worker's LOAN_REFINANCE branch
(`backend/src/jobs/reconciliation.worker.ts:652-660`) announces the new loan as a fallback but reads a sixth argument of an
event with five, so it throws. The bank repository (`backend/src/modules/bank/bank.repository.ts:155-160`) says that
cancelling a pending loan emits no event; the indexer handles one. The Safe executor
(`backend/src/modules/admin/admin.service.ts:311-321`) calls a refused tracking row safe to continue from; the later
update of that row then fails, and `RevertedRecordIsFinal` says what follows. The schema
(`backend/prisma/schema.prisma:519-522`) says that the flags of a request are set on XferApproved; only the sweep sets them.

## Model

| member | source | states |
|---|---|---|
| Recovery.CrashesLeaveNoTrace | backend/src/modules/indexer/indexer.service.ts:203-238 | Crash-replay equivalence: catch-up runs of one contract that die between any two database writes, each restarted from the persisted cursor, and then one that completes, leave every business row as one uninterrupted run does |
| Recovery.RecoverFrom | backend/src/modules/indexer/indexer.service.ts:216-238 | The same from any cursor, and also for everything the handlers read of the tracking rows |
| Recovery.ReplayAfterCut | backend/src/modules/indexer/indexer.service.ts:641-705 | A pass cut inside a handler, also between the ownership and the passport write of VehicleReg, is repaired by the next pass |
| Recovery.RunSame | backend/src/modules/indexer/indexer.service.ts:240-300 | Handlers cannot tell apart databases that agree on business rows and on what is read of tracking rows |
| Replay.ReplayIsIdempotent | backend/src/modules/indexer/indexer.service.ts:240-300 | Dispatching the same ordered logs of one contract again changes no business row |
| Replay.ReplayFrom | backend/src/modules/indexer/indexer.service.ts:240-300 | A second pass ends where the first did from any database whose columns each hold the value from before or after the first pass |
| Replay.HandleInStep | backend/src/modules/indexer/indexer.service.ts:707-857 | One event handled on both passes keeps them in step: no column strays from its first and last value |
| Replay.RunReplayable | backend/src/modules/indexer/indexer.service.ts:944-1009 | Running any of the logs keeps promotions fresh: a creating event still finds its own row unnumbered or already numbered by itself |
| Replay.NeverMade | backend/src/modules/indexer/indexer.service.ts:641-705 | An id that no remaining event creates stays unknown |
| IndexerFacts.HandleSound | backend/src/modules/indexer/indexer.service.ts:240-300 | Every handler keeps on-chain ids unique, tracking rows pointing at rows of the right table, and pending loans unnumbered |
| IndexerFacts.HandleLater | backend/src/modules/indexer/indexer.service.ts:240-300 | A handler only moves forward: ids and references stay, rows vanish only as withdrawn pending loans, tracking rows only with them |
| IndexerFacts.EffectNumbers | backend/src/modules/indexer/indexer.service.ts:944-986 | Only creating events number rows, with their own id, and an unnumbered row only if it is the linked one |
| IndexerFacts.FindUniqueRow | backend/src/modules/indexer/indexer.service.ts:944-951 | The query by on-chain id returns the row that has it, or none when there is none |
| Lookalikes.LookalikeEffect | backend/src/modules/indexer/indexer.service.ts:1085-1138 | A handler's writes depend only on the rows it finds by on-chain id and on the tracking row of its transaction |
| Indexer.RunAppend | backend/src/modules/indexer/indexer.service.ts:229-233 | Dispatching two batches is dispatching their concatenation |
| IndexerServices.IndexerService.HandleVehicleReg | backend/src/modules/indexer/indexer.service.ts:641-693 | Column by column: a known ownership gets the owner, a new one all its columns, the passport is active and the transaction MINED; an unknown passport changes no row; a new ownership of an unknown RTO is refused and nothing changes |
| IndexerServices.IndexerService.HandleXferApproved | backend/src/modules/indexer/indexer.service.ts:780-812 | The found request gets TransferBuyerAccepted for approver 1, TransferRtoApproved for approver 2, with the member of the known tracking row as RTO approver, and TransferPending otherwise; no other column or row changes, and a new tracking row is a buyer or an RTO approval accordingly |
| IndexerServices.IndexerService.HandleChallanIssued | backend/src/modules/indexer/indexer.service.ts:944-994 | Column by column: the pre-created row, else the one with the id, is numbered, else a row with all its columns is created; a clashing id changes nothing at all |
| IndexerServices.IndexerService.HandlePolicyIssued | backend/src/modules/indexer/indexer.service.ts:1085-1138 | Column by column: promotes the linked policy with the owner of the vehicle, or upserts it by id |
| IndexerServices.IndexerService.HandlePucIssued | backend/src/modules/indexer/indexer.service.ts:1260-1312 | Column by column: needs the issuing centre from the tracking row; promotes the linked certificate or upserts it by id |
| IndexerServices.IndexerService.HandleLoanReg | backend/src/modules/indexer/indexer.service.ts:1408-1466 | Column by column: promotes the pending loan or upserts it by id; leaves the tracking row of a refinancing alone |
| IndexerServices.IndexerService.HandlePendingLoanCancelled | backend/src/modules/indexer/indexer.service.ts:1637-1655 | Deletes exactly the pending loans of that vehicle whose lender has that on-chain id |
| IndexerServices.IndexerService.HandleXferInit | backend/src/modules/indexer/indexer.service.ts:707-742 | A new request of a known ownership has its parties, its ownership and the pending status; a known one only becomes pending again |
| IndexerServices.IndexerService.HandleXferDone | backend/src/modules/indexer/indexer.service.ts:821-850 | The ownership row with the token gets the lower-case wallet and its user, and nothing else changes, not even a tracking row |
| TransferWriters.ApprovalHandled | backend/src/modules/indexer/indexer.service.ts:780-812 | The same of the handler as a step of the runs: status, approver, every other column, the tracking row |
| TransferWriters.BuyerApprovalConverges | backend/src/jobs/reconciliation.worker.ts:398-431 | Whichever writer mirrors the buyer's approval first, after the sweep the tables are the same, and the handler alone lacks the flag and nothing else; either way the service of the RTO, which asks for a pending request, refuses it |
| TransferWriters.RtoApprovalWriters | backend/src/jobs/reconciliation.worker.ts:433-457 | For an approval by the RTO, which emits XferApproved and XferDone, sweep and handlers end in the same status and tracking row and differ in the flag, the dates, the approver and the count only; the owner is the same if and only if the address is lower-case |
| IndexerServices.IndexerService.ProcessLog | backend/src/modules/indexer/indexer.service.ts:240-300 | Dispatches an event to its handler; the result is the specified one and the database stays sound |
| IndexerServices.IndexerService.AdvanceCursor | backend/src/modules/indexer/indexer.service.ts:203-214 | Tracker and persisted cursor move together; the tracker never moves back, and the persisted cursor does exactly when the block lies between a stale tracker and it |
| IndexerServices.IndexerService.CatchUpContract | backend/src/modules/indexer/indexer.service.ts:216-238 | Chunks of at most 2000 blocks tile the range without gap; wherever it dies, a prefix of the logs has been dispatched in order that covers everything up to the persisted cursor; completed, the cursor is at the latest block |
| IndexerServices.CatchUpWithCrashes | backend/src/modules/indexer/indexer.service.ts:216-238 | A process that dies and restarts on a growing chain any number of times and completes on its last run leaves the rows of one run, from a saved cursor, and from none while the chain is no longer than the default depth |
| IndexerServices.CrashedRun | backend/src/modules/indexer/indexer.service.ts:216-238 | One crashed run, seen in the whole history, keeps the rest of the history able to reach the same end |
| IndexerServices.TilesExtend | backend/src/modules/indexer/indexer.service.ts:223-226 | The next chunk begins where the last one ended |
| IndexerServices.LogsInSplit | backend/src/modules/indexer/indexer.service.ts:226-228 | The logs of a block range are those of its two halves, in order |
| CatchUpDrift.FirstCatchUpLosesExactly | backend/src/modules/indexer/indexer.service.ts:216-223 | A crash before the first cursor write can lose rows exactly when the chain is longer than the default depth at the restart |
| CatchUpDrift.RestartCovers | backend/src/modules/indexer/indexer.service.ts:216-238 | No row is lost if the dead run had handled every log of the blocks that the restart skips |
| CatchUpDrift.RestartLoses | backend/src/modules/indexer/indexer.service.ts:216-238 | Otherwise whatever a skipped log would have created stays unknown, and a run without the crash has it |
| CatchUpDrift.RestartIsCatchUp | backend/src/modules/indexer/indexer.service.ts:216-238 | Both statements are about what two catch-ups of the service leave behind |
| Reconciler.ParseReceiptEvents | backend/src/jobs/reconciliation.worker.ts:148-162 | The event map holds, per name, the first event over logs and then interfaces |
| Reconciler.IndexIsFirst | backend/src/jobs/reconciliation.worker.ts:148-162 | Looking a name up in the event map gives its first occurrence in the receipt |
| Reconciler.FirstNamedIsFirst | backend/src/jobs/reconciliation.worker.ts:147-162 | First means: every earlier event has another name |
| ReconciliationWorkers.ReconciliationWorker.HandleSuccessfulReconciliation | backend/src/jobs/reconciliation.worker.ts:170-694 | All rows and the tracking row are rolled forward, or, when a statement throws, nothing changes |
| ReconciliationWorkers.ReconciliationWorker.SettleTransfer | backend/src/jobs/reconciliation.worker.ts:398-465 | With XferDone the request has the flag of its approver, TransferRtoApproved and its date, and the linked ownership row the new owner's wallet, his user or none, and one more transfer; a buyer approval without it only accepts; every other column and row stays |
| SweepRows.CompletesExactly | backend/src/jobs/reconciliation.worker.ts:398-456 | A completed approval throws if and only if its request, or the counted ownership row of the request, is missing |
| SweepRows.RollForwardRows | backend/src/jobs/reconciliation.worker.ts:170-694 | For every action: the columns a settled sweep has set, and that it has changed no other column, row or tracking row |
| ReconciliationWorkers.ReconciliationWorker.SettleLoan | backend/src/jobs/reconciliation.worker.ts:582-692 | Registration, clearance with its optional recipient, cancellation, and a refinancing that always throws when LoanReg is in the receipt |
| ReconciliationWorkers.ReconciliationWorker.HandleRevertedRollback | backend/src/jobs/reconciliation.worker.ts:700-898 | Each action's compensation, column by column over the old row, every other column and row unchanged; a missing row is ignored |
| Rollbacks.RestoredExactly | backend/src/jobs/reconciliation.worker.ts:718-864 | For every row that has passed the guard of a service: the rollback gives the row back, but for a dealer when one was assigned before, a policy or certificate that was not in force, a counted claim, and, always, an approval by the RTO |
| Rollbacks.RtoRollbackSpoilsRequest | backend/src/modules/rto/rto.service.ts:181-226 | Every request the RTO's service lets through was pending and is BUYER_ACCEPTED after the rollback of the approval, so the service refuses it from then on |
| Rollbacks.RequestRestoredExactly | backend/src/jobs/reconciliation.worker.ts:746-766 | Rollback of a buyer's approval or of a cancellation leaves the request as it is if and only if it is pending and, for the approval, not accepted |
| Rollbacks.NoApprovalSurvives | backend/src/jobs/reconciliation.worker.ts:746-766 | No rollback leaves the flag of the approval that reverted set, sets a flag, or touches the other party's |
| Rollbacks.ClaimCountsDown | backend/src/jobs/reconciliation.worker.ts:820-826 | The rollback of a claim takes exactly one from a count and changes nothing else |
| ReconciliationWorkers.ReconciliationWorker.ReconcileOne | backend/src/jobs/reconciliation.worker.ts:83-120 | One transaction is the ledger move that takes it, and after a revert the move that compensates it |
| ReconciliationWorkers.ReconciliationWorker.ReconcileBatch | backend/src/jobs/reconciliation.worker.ts:81-116 | From any state of the ledger a batch is a run of one sweeper that takes the page in order, each transaction once, and ends at rest; so the ledger stays sound |
| ReconcilerFacts.RollForwardSound | backend/src/jobs/reconciliation.worker.ts:170-694 | Rolling forward keeps the database sound |
| ReconcilerFacts.CompensateSound | backend/src/jobs/reconciliation.worker.ts:700-898 | So does compensating |
| Writers.WhicheverWriterComesFirst | backend/src/jobs/reconciliation.worker.ts:489-628 | For the ten mirrored actions, any two complete orders of sweep and event handlers, with repetitions, agree on every column outside the one-sided ones, never on status or on-chain id differently, touch no other row, and mark the tracking row MINED |
| Writers.OneSidedDiffers | backend/src/jobs/reconciliation.worker.ts:511-574 | Each one-sided column really differs unless what the one writer wrote was there before |
| Writers.WritersAgree | backend/src/modules/indexer/indexer.service.ts:1013-1081 | Outside the one-sided columns both writers set the same columns, to the same values |
| Writers.StillReady | backend/src/modules/indexer/indexer.service.ts:1085-1209 | After one writer's turn the other still finds its row and the rows it looks up |
| Writers.PlayedAll | backend/src/jobs/reconciliation.worker.ts:525-628 | After any turns each column holds what some turn wrote, or its old value |
| Sagas.RevertedSagasLeaveNoTrace | backend/src/jobs/reconciliation.worker.ts:700-874 | In any interleaving of submissions, sweeps, indexed events and payment references where no two outstanding transactions share a row, leaving out the reverted submissions is a possible run, and it ends with the same business rows if and only if every reverted creation has been compensated |
| Sagas.CompensationIsExact | backend/src/jobs/reconciliation.worker.ts:718-864 | Compensation of an existing row changes nothing exactly when the row already has the restored values |
| Sagas.GuardsMakeExact | backend/src/modules/police/police.service.ts:140-157 | The service guards with the row invariant make the compensations of the listed actions exact |
| Sagas.GuardsAreExact | backend/src/modules/police/police.service.ts:73-88 | Conversely these guards refuse no numbered row that the compensation would leave alone |
| Sagas.GuardsThatAreNotExact | backend/src/modules/insurance/insurance.service.ts:116-128 | For policy expiry, certificate expiry and claims the guard admits rows that compensation spoils; the exact condition of each |
| Sagas.IndexOk | backend/src/modules/indexer/indexer.service.ts:1013-1081 | Events in chain order keep open challans without dates and loans without NOC without clearance |
| Sagas.SettleOk | backend/src/jobs/reconciliation.worker.ts:489-628 | So do sweeps |
| Sagas.IndexShadow | backend/src/modules/indexer/indexer.service.ts:240-300 | Handlers do the same with and without the rows of reverted submissions |
| Sagas.SettleShadow | backend/src/jobs/reconciliation.worker.ts:170-694 | Sweeps do the same with and without them |
| Ledger.LedgerSound | backend/src/jobs/reconciliation.worker.ts:83-116 | In every reachable state of services, indexer and any number of sweepers a row is MINED only if its transaction succeeded and FAILED only if it reverted, and none is both rolled forward and compensated |
| Ledger.SettledForever | backend/src/jobs/reconciliation.worker.ts:174-179 | A row never leaves MINED or FAILED, even if it is deleted and comes back |
| Ledger.StrandedForever | backend/src/jobs/reconciliation.worker.ts:98-106 | A transaction marked FAILED whose sweeper died before the rollback is never compensated |
| Ledger.AbandonedExactlyByCrash | backend/src/jobs/reconciliation.worker.ts:98-106 | Along every run from a fresh state, by one sweeper or several whose batches share no reverted transaction, a FAILED transaction is neither compensated nor being compensated exactly when a crash hit its sweeper between the two writes; otherwise FAILED means compensated or being compensated |
| Ledger.TransfersCountedOnce | backend/src/jobs/reconciliation.worker.ts:398-457 | With any number of sweepers no two of which hold the same succeeded transfer approval, whatever else they share and whatever crashes, the transfer count of a vehicle is its first value plus one for each completed approval, and no approval completes twice |
| Ledger.OneSweeperCountsOnce | backend/src/jobs/reconciliation.worker.ts:50-53 | The worker's concurrency of one, which makes sweepers share nothing, is enough for that |
| Ledger.TwoSweepersCountTwice | backend/src/jobs/reconciliation.worker.ts:398-457 | In every state in which two batches share an approval that counts, a run counts it twice |
| Ledger.RollForwardCounts | backend/src/jobs/reconciliation.worker.ts:403-456 | Rolling forward raises one count, of the vehicle of the completed transfer, and no other |
| LedgerOwners.OwnerIsLastWritten | backend/src/jobs/reconciliation.worker.ts:415-456 | Over every run the owner of an ownership row is the last one written, by a completed approval that counts on it or by an indexed XferDone or VehicleReg of its token, and the first owner when there is none; nothing else writes it, whatever crashes |
| LedgerOwners.LastApprovalOwns | backend/src/jobs/reconciliation.worker.ts:415-456 | When the indexer writes no owner to the row, it is the new owner of the last approval counted on it |
| Sweeps.ReconcileTransactions | backend/src/jobs/reconciliation.worker.ts:57-120 | The sweep ends and visits strictly ascending ids; a row that stays pending is missed if and only if on some page it came right after the cursor row, the last of the page before, and that row had resolved |
| Sweeps.VisitedInTime | backend/src/jobs/reconciliation.worker.ts:64-120 | A pending row is visited after at most as many sweeps as there are pending rows before it, and one |
| Sweeps.PageCovers | backend/src/jobs/reconciliation.worker.ts:65-74 | Rows between the old and the new cursor are on the page, except one skipped in place of a resolved cursor row |
| Sweeps.RowAfterResolvedCursorIsMissed | backend/src/jobs/reconciliation.worker.ts:69-74 | Such a row is really missed: the page has larger ids only |
| Sweeps.SweepsAreSwept | backend/src/jobs/reconciliation.worker.ts:57-120 | What the method promises of one sweep is what the statement about successive sweeps assumes of each |
| LoanGuards.OnePendingLoanPerVehicle | backend/src/modules/bank/bank.service.ts:52-76 | At most one pending loan per vehicle in every state, across registration on both branches, promotion, NOC, cancellation and rollback |
| LoanGuards.MayRegisterExactly | backend/src/modules/bank/bank.service.ts:43-76 | The guard in terms of the rows: not scrapped, no pending loan, and, unless a transfer of the vehicle is pending, no active one without NOC |
| LoanGuards.GuardKeepsOut | backend/src/modules/bank/bank.service.ts:52-76 | Either branch of the guard refuses a vehicle with a pending loan |
| LoanGuards.HandleSettles | backend/src/modules/indexer/indexer.service.ts:1408-1655 | No event handler makes a pending loan or moves one to another vehicle |
| LoanGuards.RegisterExactly | backend/src/modules/bank/bank.service.ts:118-130 | Recording a loan keeps pending loans single exactly when the vehicle has none |
| LoanCalls.OneExactlyWhenClear | backend/src/modules/bank/bank.service.ts:52-118 | Over runs with guard and record apart no vehicle ever has two pending loans exactly when each record finds its vehicle without one |
| LoanCalls.OneExactlyWhenApart | backend/src/modules/bank/bank.service.ts:52-118 | From any state: no continuation in which calls check their vehicle alone makes two pending loans, exactly when the calls under way are on different vehicles without a pending loan |
| Services.BankService.RegisterLoan | backend/src/modules/bank/bank.service.ts:30-132 | Registers past the guards and the owner check: one new loan row with exactly its seven columns and its tracking row; keeps pending loans single, and a refusal changes nothing; what it leaves is a submission that the saga theorem allows in every world with these tables |
| Services.BankService.IssueNoc | backend/src/modules/bank/bank.service.ts:148-200 | Succeeds exactly for the lender's active loan without NOC and with an on-chain vehicle; records only a tracking row; what it leaves is a submission that the saga theorem allows in every world with these tables |
| Services.BankService.CancelPendingLoan | backend/src/modules/bank/bank.service.ts:217-258 | Picks a pending loan of this lender and vehicle, or says that there is none; what it leaves is a submission that the saga theorem allows in every world with these tables |
| Services.BankService.RefinanceLoan | backend/src/modules/bank/bank.service.ts:271-345 | Succeeds exactly for the lender's active loan without NOC; the loan row itself is not touched; what it leaves is a submission that the saga theorem allows in every world with these tables |
| Services.PoliceService.IssueChallan | backend/src/modules/police/police.service.ts:13-58 | Creates one row with exactly its eight columns, of that station, amount, officer and vehicle, and its tracking row, or changes nothing; what it leaves is a submission that the saga theorem allows in every world with these tables |
| Services.PoliceService.CancelChallan | backend/src/modules/police/police.service.ts:63-118 | Succeeds exactly for the station's own open, complete challan; what it leaves is a submission that the saga theorem allows in every world with these tables |
| Services.PoliceService.PayChallan | backend/src/modules/police/police.service.ts:123-188 | Likewise, and only for the exact amount; what it leaves is a submission that the saga theorem allows in every world with these tables |
| ServiceLaws.ChallanServesItsStation | backend/src/modules/police/police.service.ts:63-188 | A challan that a station has issued for an amount can, once the sweep or the indexer has numbered it, be cancelled and paid by that station and no other, for that amount |
| ServiceLaws.PendingLoanServesItsBank | backend/src/modules/bank/bank.service.ts:217-230 | A loan that a bank has registered is what cancelPendingLoan finds for that bank, and it finds none for another |
| ServiceLaws.LoanServesItsBank | backend/src/modules/bank/bank.service.ts:148-310 | Once numbered, issueNoc and refinanceLoan accept that bank and no other |
| SafeGovernance.EverySubmissionIsAuthorised | backend/src/modules/admin/admin.service.ts:133-297 | In every interleaving of signers, cancellations, fallbacks, sweeps and retries each execTransaction carries at least threshold signatures |
| SafeGovernance.ExecutedIsJustified | backend/src/modules/admin/admin.service.ts:308-343 | EXECUTED always rests on the recorded attempt having been mined |
| SafeGovernance.RevertedRecordIsFinal | backend/prisma/schema.prisma:818-820 | The proposal id on tracking rows is unique, so after a recorded attempt reverted no retry can make the proposal EXECUTED |
| SafeOutcomes.OneSweepConverges | backend/src/jobs/reconciliation.worker.ts:174-203 | Once the hash of a mined attempt is recorded, whatever happens afterwards, a pending record can be swept, and the sweep, the receipt and the indexer each end in EXECUTED and MINED |
| SafeOutcomes.SettledByALayer | backend/src/modules/indexer/indexer.service.ts:1684-1781 | A record that is no longer pending has been through one of the three layers, or the inner call failed |
| SafeOutcomes.FailureIsRecorded | backend/src/jobs/reconciliation.worker.ts:705-712 | A recorded attempt that failed ends as EXECUTION_FAILED and FAILED: by the sweep when all of it reverted, by the indexer when the inner call did |
| SafeOutcomes.ExecutedIsAbsorbing | backend/src/modules/admin/admin.service.ts:224-260 | EXECUTED can be left by some run exactly when a cancellation, the last attempt of a job, a signer who counts enough signatures, or a noted failure of the recorded hash read the proposal earlier and is under way; an earlier attempt cannot, since its retry reads EXECUTED |
| SafeOutcomes.OverwriteRun | backend/src/jobs/safe-execution.worker.ts:30-39 | For each such call a run that overwrites EXECUTED; an attempt, wherever it is, throws and gives up |
| SafeOutcomes.LateFailureOverwritesExecuted | backend/src/jobs/safe-execution.worker.ts:30-39 | Such states are reached: an attempt that threw while waiting is still failing when a sweep has executed the proposal |
| SafeOutcomes.CancelledIsNotTerminal | backend/src/modules/admin/admin.service.ts:120-131 | A cancelled proposal stays cancelled in every run exactly when no job is queued, no record is pending with a verdict, no mined attempt can be noted, and no call under way can revive it; otherwise a run leaves CANCELLED, of a job or an attempt by its remaining attempts |
| SafeOutcomes.CancelledEarlyIsTerminal | backend/src/modules/admin/admin.service.ts:120-131 | Cancelled two signatures before the threshold it stays cancelled |
| SafeOutcomes.ExecutedWithoutEffect | backend/src/modules/admin/admin.service.ts:324-343 | EXECUTED does not mean that the proposed call succeeded: from a pending record a run ends so exactly when the inner call failed with receipt status 1 |
| SafeSigning.QueuedExactlyByLateReaders | backend/src/modules/admin/admin.service.ts:176-198 | For any threshold and any number of signers, once all have decided there is one job for each signer who read at least threshold - 1 signatures, so none exactly when there was no such signer |
| SafeSigning.OneByOneQueues | backend/src/modules/admin/admin.service.ts:176-198 | Sign calls that do not overlap queue the execution exactly when the threshold is reached |
| SafeSigning.ConcurrentSignersStall | backend/src/modules/admin/admin.service.ts:133-198 | Any number of signers who read at the same time all sign, and with a threshold of two or more no job is queued |
| SafeSigning.StallsExactlyFromTwo | backend/src/modules/admin/admin.service.ts:176-198 | Signing can stall exactly when more than one signature is asked for |
| AdminServices.AdminService.SignProposal | backend/src/modules/admin/admin.service.ts:133-208 | Uninterrupted, one signature is added, and the job is queued exactly when the threshold is reached |
| AdminServices.AdminService.ExecuteSafeTxInternal | backend/src/modules/admin/admin.service.ts:250-357 | One attempt of a job with any number of attempts before it: skips an executed proposal, returns only with EXECUTED and a MINED record of its own hash, throws otherwise |
| AdminServices.AdminService.ProcessJob | backend/src/jobs/safe-execution.worker.ts:8-40 | Up to three attempts, numbered by the queue, ending EXECUTED or EXECUTION_FAILED, with the other jobs untouched |
| AdminServices.MethodsAreAuthorised | backend/src/modules/admin/admin.service.ts:133-357 | Whatever the methods did, every submission was authorised and EXECUTED justified |
| SafeSignatures.SafeProposal.Sign | backend/src/modules/admin/admin.service.ts:144-190 | Accepted exactly while the proposal collects signatures, from an owner who made the signature and has not signed in any letter case; signers stay distinct, and the threshold is noted when it is reached |
| SafeSignatures.SafeProposal.CollectSignatures | backend/src/modules/admin/admin.service.ts:276-297 | The signatures handed over are a permutation of the rows, strictly ascending by numeric address |
| SafeSignatures.StringOrderIsNumeric | backend/src/modules/admin/admin.service.ts:279-283 | On lower-case hexadecimal of equal length string order is numeric order |
| SafeSignatures.SortIsPermutation | backend/src/modules/admin/admin.service.ts:279-283 | The sort loses and invents no signature |
| RefreshQueues.SingleFlightAlways | frontend/src/lib/api.ts:94-145 | Over any order of responses at most one refresh is in flight, none in flight means no subscribers, and every request is sent at most twice and settles at most once |
| RefreshQueues.RestMeansSettled | frontend/src/lib/api.ts:94-145 | When nothing is due any more every request has settled exactly once |
| RefreshQueues.RunsEnd | frontend/src/lib/api.ts:94-145 | Without new requests a run has at most as many steps as a measure of its requests |
| RefreshQueues.Interceptor.HandleRefreshDone | frontend/src/lib/api.ts:97-140 | The flag falls before the subscribers are called; subscribers and then the leader resend or reject |
| RefreshQueues.Interceptor.HandleResponse | frontend/src/lib/api.ts:104-125 | By fields: the first 401 of a request settles nothing and starts the refresh, or, while one is under way, joins the end of its subscribers; successes resolve, all else rejects |
| RefreshOutcomes.RefusedWaits | frontend/src/lib/api.ts:104-125 | After a first 401 outside the refresh URL exactly one refresh is in flight, and the request leads it or waits for it |
| RefreshOutcomes.OutcomeExactly | frontend/src/lib/api.ts:94-145 | Over every run a request is resolved if and only if its last reply was a success, and rejected if and only if that was another error, a 401 on its retry or on the refresh URL, or a first 401 whose refresh failed |
| RefreshOutcomes.RefusedRequestsRecover | frontend/src/lib/api.ts:94-145 | When refreshes and retries succeed, at rest every request that was refused first is resolved after two sends |
| AuditLogs.PageOfWholeHistory | backend/src/modules/gov/gov.repository.ts:133-258 | The page built from the newest limit*page rows of each table has the dates, in order, of that page of the whole merged history, if every completion that is not fetched has limit*page fetched events that are not older |
| AuditLogs.SameEventsWhenDatesDiffer | backend/src/modules/gov/gov.repository.ts:133-258 | With distinct dates, under the same condition, the page has the same events |
| AuditLogs.GetGlobalAuditLogs | backend/src/modules/gov/gov.repository.ts:133-258 | The loops, the sort and the slice give the page that these statements call shown |
| AuditLogs.HistoryExactly | backend/src/modules/gov/gov.repository.ts:133-240 | The history holds the event of each row and of each completion, and no other |
| AuditLogs.SortPermutes | backend/src/modules/gov/gov.repository.ts:245-250 | The sort loses and invents no event |
| AuditLogs.FirstPageExactly | backend/src/modules/gov/gov.repository.ts:139-256 | The first page is right if and only if every completion that is not fetched has limit fetched events that are not older |
| AuditLogs.PageExactly | backend/src/modules/gov/gov.repository.ts:139-256 | With distinct dates the same holds of every page: a missing completion also shifts the pages after it |
| AuditLogs.TotalIsOfFetched | backend/src/modules/gov/gov.repository.ts:245-256 | The reported total is the size of the history just when no table was cut |
| SearchEscape.SearchIsLiteral | backend/src/utils/sanitizer.ts:13-24 | The pattern around the sanitized input is well formed and matches a text exactly when it contains the trimmed input of at most 100 characters |
| SearchEscape.CappedExactly | backend/src/utils/sanitizer.ts:13-16 | Trimming takes white space off both ends and nothing else, and the cap cuts at 100 characters |
| SearchEscape.ThreeReplacesAreOneEscape | backend/src/utils/sanitizer.ts:16-23 | The three successive replaces are one escape per character |
| SearchEscape.CutAfterEscapingDangles | backend/src/utils/sanitizer.ts:16-23 | Cutting after escaping instead would leave an escape without its character |
| SseIndex.SseManager.Serve | backend/src/modules/notification/sseManager.ts:14-62 | After any sequence of connects and disconnects the map holds exactly the pairs that the sequence leaves open, and no empty set |
| SseIndex.SseManager.AddClient | backend/src/modules/notification/sseManager.ts:39-51 | Adds the pair, for the first time or again, greets the connection, and the new close handler captures the stored set |
| SseIndex.SseManager.OnClose | backend/src/modules/notification/sseManager.ts:53-61 | One handler removes its connection from its group, and the id with the last member; all handlers still find their set or its place gone |
| SseIndex.SseManager.Disconnect | backend/src/modules/notification/sseManager.ts:53-61 | A closing connection leaves every id it was added under, even twice |
| SseIndex.OpenExactly | backend/src/modules/notification/sseManager.ts:39-61 | A pair counts as open if and only if it was added and its connection has not closed since |
| SseIndex.SseManager.IndexIsOpen | backend/src/modules/notification/sseManager.ts:14-62 | The map has exactly the ids with an open pair |
| SseIndex.SseManager.BroadcastTo | backend/src/modules/notification/sseManager.ts:67-81 | Writes once to each subscribed connection and to no other |
| RoleHierarchy.OwnerNeverLost | backend/src/modules/b2b-member/b2b-member.service.ts:90-121 | With current tokens an institution with an active owner keeps one over every run |
| RoleHierarchy.SeniorsFixedWithoutOwner | backend/src/modules/b2b-member/b2b-member.service.ts:15-121 | Where no owner acts the owners and admins and their flags never change |
| RoleHierarchy.OneRequestLosesOwner | backend/src/modules/b2b-member/b2b-member.service.ts:90-121 | Whatever the token, one request takes the last active owner exactly when it demotes or deactivates the only one and the token names another owner of that institution |
| RoleHierarchy.OwnedExactlyWithoutFatal | backend/src/modules/b2b-member/b2b-member.service.ts:90-121 | Over any run with any tokens there is always an active owner exactly when no request is of that kind at its turn |
| RoleHierarchy.StaleTokensLoseTheOwner | backend/src/modules/b2b-member/b2b-member.service.ts:108-121 | With tokens that were all true at the start an institution can lose its last owner exactly when it has two |
| RoleHierarchy.MemberService.UpdateMemberRole | backend/src/modules/b2b-member/b2b-member.service.ts:90-106 | Accepted if and only if it is about another member of the same institution whose current and new role the caller may manage; then only that role changes, and a refusal changes nothing |
| RoleHierarchy.MemberService.AssertRoleHierarchy | backend/src/modules/b2b-member/b2b-member.service.ts:15-28 | An owner may modify anyone, an admin operators and viewers, others nobody |
| GroupHeaders.CheatcodeList.PrefixWithGroupHeaders | contracts/lib/forge-std/scripts/vm.py:139-151 | The loop that inserts into the list it iterates ends and puts one header before each new group |
| GroupHeaders.OneHeaderPerGroup | contracts/lib/forge-std/scripts/vm.py:139-151 | Every header is the first entry of its group, directly before the group's first member, and every group has one |
| GroupHeaders.HeadersOnlyAdd | contracts/lib/forge-std/scripts/vm.py:139-151 | Dropping the headers gives the original list back |

## Left out

- Recovery.CrashesLeaveNoTrace: compares business rows; tracking rows may differ, because cancelling a pending loan deletes the tracking row of its registration and a replay creates it anew, unlinked. It asks for logs of one contract in which no event precedes the event that creates its id, since contracts are caught up one after another and their relative order is lost, and for no service writes in between.
- IndexerServices.CatchUpWithCrashes: dies between handlers only; deaths inside a handler are in `Recovery.CrashesLeaveNoTrace`. Without a saved cursor it asks for a chain within the default depth, beyond which it fails, see `CatchUpDrift.FirstCatchUpLosesExactly`.
- Sagas.RevertedSagasLeaveNoTrace: takes the guard and the record of a submission as one step, although the chain is called between them.
- LoanGuards.OnePendingLoanPerVehicle: takes each call of registerLoan as one step; `LoanCalls` takes guard and record apart.
- Rollbacks.RestoredExactly: of the guards it takes the conditions on the row; those on other rows (trade certificates, pending assignments), on dates and on MAX_CLAIMS are left out, and so are `sellerOK` and the buyer's RTO.
- Ledger.TransfersCountedOnce: asks that no succeeded transfer approval is in two batches, see `TwoSweepersCountTwice`; counts completions by the sweep; the indexer's XferDone handler never changes the count.
- SseIndex.SseManager.OnClose: runs only as part of a close event, which runs all handlers of its connection before anything else happens.
- AdminServices.AdminService.SignProposal: recovering the signer, the owner check and letter case are in `SafeSignatures.SafeProposal.Sign`.
- IndexerServices.IndexerService.HandleVehicleReg: approving the registration request is not modelled; the table of requests is read nowhere else here.
- IndexerServices.IndexerService.ProcessLog: registrations, toggles, the passport contract, trade certificates, terminated policies and certificates, and the Safe events are not dispatched; Safe events are moves of `SafeGovernance`.
- ReconciliationWorkers.ReconciliationWorker.HandleSuccessfulReconciliation: SAFE_EXEC is a move of `SafeGovernance`; VEHICLE_REGISTER_RTO, TRANSFER_INIT and TRADE_CERT_ISSUE are not modelled.
- ReconciliationWorkers.ReconciliationWorker.HandleRevertedRollback: leaves out the same actions.
- AuditLogs.GetGlobalAuditLogs: models the merge, with each table ordered by the date its events carry. As the code stands it fails before that: it asks for a model `ownershipToken` ordered by `mintDate` and for policies and certificates ordered by `issuedAt`, which the schema does not have (`VehicleOwnership.regDate`, `issueDate`).
- Writers.WhicheverWriterComesFirst: covers challans, policies, PUC certificates, loan registration and NOC. VEHICLE_REGISTER_RTO, TRANSFER_INIT and the loan a refinancing creates are not mirrors of the handlers (letter case, missing fields, argument count).
- Reconciler branches for VEHICLE_REGISTER_RTO, TRANSFER_INIT and TRADE_CERT_ISSUE, and the SAFE_EXEC side effects on entities and challans.
- Indexer handlers for registrations, toggles, the passport contract, trade certificates, terminated policies and certificates.
- Unique columns other than on-chain ids and transaction hashes (VIN hash, passport of an ownership), and cascades between business rows; cascades from business rows to tracking rows are modelled.
- Live WebSocket listeners and the reconnect timer, whose cursor skips the rest of a block; the sweep's query when its cursor row has been deleted.
- Several proposals at once: a proposal is modelled alone, since its rows and jobs are its own. Wallets are compared by value there; letter case is in `SafeSignatures`.
- localeCompare is character order on lower-case hexadecimal; recovering a signer from a signature is a parameter.
- Negative page numbers and limits of the audit log; descriptions and entity names of its events.
- Case folding of LIKE; strings are sequences of code units.
- Notification payloads, e-mail, logging, controllers, schemas, cookies, rate limits, and the contracts themselves.
- Errors of the database other than missing rows, unique constraints and the foreign key of a new ownership.

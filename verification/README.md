# Verified model of the ghoStellar payment core

This project models six connected pieces of a non-custodial payment system and proves what
they promise over every run: the `pay-escrow` contract, the off-chain mirror of its cheques,
the pool cache, the idempotent submit protocol, the NFC tag transfer, the exact-money and
contract-value codecs with the pre-authorisation built on them, and the refund sweep's
backoff.

Code that changes state in place is a class whose methods are proved equal to a pure step;
the theorems about runs and interleavings then speak about the steps. A database transaction
(or, for the submit service, a single SQL statement) is one atomic step, and a request is a
`Task` with a program counter, so requests interleave with each other, with process crashes
and with the chain at every point where the code touches the database or asks the chain.

| files | piece |
|---|---|
| `MapSums`, `PayEscrow`, `EscrowSolvency`, `EscrowSettlement`, `EscrowPools`, `EscrowAnswers` | the contract, solvency, settlement of one cheque id, pool accounting, who pays and what each call answers |
| `ChequeStore`, `ChequeService`, `ChequeMirror`, `ChequeAnswers` | tables and transactions, requests, mirror and chain running together, what each request answers |
| `ChequeGuarantees`, `ChequeStuck`, `ChequeDeaths`, `ChequeTerms` | what follows: safety, which rows can still move, how they die, whose terms a row has |
| `PoolCache` | cached pool balances, confirms and reconciles |
| `TxStore`, `TxSubmit`, `TxOnce`, `TxReaps` | idempotency keys and submissions, `Submit`, all its interleavings, the reaper and time |
| `HceTag`, `HceAnswers`, `HceRuns`, `HceTransfer` | the tag, what it answers, arbitrary command sequences, whole transfers |
| `Money`, `MoneyRoundTrip`, `ScVal`, `Preauth` | decimal strings, i128 halves, the pre-signed force collect |
| `Scheduler` | the retry backoff |
| `Options` | a value that may be missing |

## Assumptions

- Tokens are honest: a transfer moves exactly its amount or fails for lack of balance, and a
  token's total supply fits in an i128. Balances may otherwise change elsewhere at any time,
  except that nobody else takes tokens from the contract's own address.
- The contract's address authorises no call, and ledger time never goes back.
- A confirm is sent only after its on-chain step has succeeded
  (`backend/services/cheque/service.go:241-247`). `ChequeGuarantees.EvidenceIsHistory` ties
  this premise to the contract's call history.
- The text form of a cheque id reads back as the id it was written from.
- Sweeps do not overlap, and a failure is recorded no earlier than its sweep began.
- A simulation answers as the contract would at that moment, or not at all
  (`ChequeService.Weather`). A simulated force collect has the sender's signature of the row's
  terms and no other; a simulated claim records the authorisation it needs.
- A refund is recorded by the scheduler alone, after its own submission succeeded.
- Where a theorem needs it, and only there, the reaper spares every key whose submit is still
  alive (`TxOnce.SparesLiving`). `TxReaps.PunctualSpares` derives this for every run in which
  no submit is older than a day when the reaper comes.

## Findings

Each is stated as a theorem about the code as it stands.

- The architecture notes say that an unfunded cheque becomes `HUKUMSUZ` and frees its
  reservation when it expires (`docs/reference/platform/p2p-cek-ve-havuz-mimarisi.md:366-369`
  and `471-476`). No code does this. A reservation is active exactly while its row is not
  terminal (`ChequeGuarantees.OpenExactlyWhileReserved`), and as long as the id is unused on
  chain that is so at any clock value (`ChequeGuarantees.UnusedStaysReserved`;
  `ChequeGuarantees.ExpiredIsStillReserved` is a run).
- Four kinds of open row are dead: nothing honest ever moves them, their sender never writes
  another cheque (`ChequeStuck.DeadForever`), and no request for a claim or a force collect
  that arrives from then on is ever granted (`ChequeStuck.NeverGranted`). An open row can move
  if and only if it is none of the four (`ChequeStuck.StuckExactly`), and each is reached from
  a fresh system:
  - marked `ZORLA_TAHSIL_DENENDI` while a lock landed on chain after all, where
    `p2p-cek-ve-havuz-mimarisi.md:462-467` expects the race to resolve itself
    (`ChequeDeaths.LockedAfterMarkIsReachable`);
  - force-collected on chain while its best-effort marker was lost
    (`backend/services/cheque/service.go:462`), so that every later simulation answers that
    the id is used (`ChequeDeaths.BouncedWithoutMarkIsReachable`);
  - `HAVUZDA` while refunded on chain with no record of it on its way. Only the scheduler
    records a refund, once, after its own submission (`backend/services/scheduler/service.go:181-191`),
    and it lists and refunds what is still funded. So a refund by anybody else, which
    `p2p-cek-ve-havuz-mimarisi.md:257-273` allows, strands the row
    (`ChequeDeaths.RefundedByOthersIsReachable`), and so does a call lost between the
    submission and its record (`ChequeDeaths.RefundLostIsReachable`);
  - `IADE_EDILEBILIR` after a crash between the two transactions that record a refund
    (`ChequeDeaths.RefundHalfRecordedIsReachable`).

  A marked row whose id nobody force-collects on terms other than the row's is moreover stuck
  once the cheque has expired unused on chain (`ChequeStuck.AttemptMovesExactly`, exact as
  well). The money is not stuck in any of these: the contract still pays out
  (`EscrowSettlement.NoStuckFunds`), and a claim request that read the row before it was
  marked is still served (`ChequeStuck.ClaimInFlightIsGranted`).
- `ReapExpiredKeys` is documented as safe beside live submits
  (`backend/services/tx/service.go:178-183`). A key gets at most one final verdict plus one for
  each time it was reaped (`TxOnce.CallsBounded`), and that many do come in even when every
  reap spares the living, because a submit that died may have heard a verdict it did not
  record (`TxReaps.BoundIsAttained`). A submit that has been alive for more than a day is not
  spared (`TxReaps.SparesExactlyYoung`), and then a done key's cached response is overwritten
  (`TxReaps.ReapUnderLivingOwner`); it can be, exactly while a living submit of the key is
  calling the chain or about to write another answer (`TxReaps.DoneChangesExactly`).
- Unless a withdrawal was clamped since the last write-back, the pool cache agrees with the
  contract exactly when the confirms recorded since then match what the pool has gained since
  that write-back's answer (`PoolCache.DriftExactly`); a confirm that arrives after a reconcile
  already saw its deposit breaks this until the next reconcile (`PoolCache.LateConfirmCountsTwice`).
- A row in the pool has the terms of the chain's record exactly when the first successful call
  of its id was the lock built for the row and the amount fits an i128
  (`ChequeTerms.FundedOnOwnTerms`, `ChequeTerms.OwnLocksFund`). Nothing compares them: a lock on
  other terms is believed when confirmed (`ChequeTerms.OtherTermsAreBelieved`) and when the row
  is repaired from the chain (`ChequeTerms.OtherTermsAreRepaired`).
- `ScI128` checks no range: a number outside the i128 range is encoded as the one it wraps to
  (`ScVal.EncodeThenDecode`, an if-and-only-if).

## Model

| member | source | states |
|---|---|---|
| Escrow.PayEscrow.constructor | contracts/soroban/pay-escrow/src/lib.rs:94-97 | a fresh deployment holds no cheque and no pool record |
| Escrow.PayEscrow.Transfer | contracts/soroban/pay-escrow/src/lib.rs:154-155 | the token client moves exactly the amount, or nothing when the holder is short |
| Escrow.PayEscrow.LockCheque | contracts/soroban/pay-escrow/src/lib.rs:130-171 | storage updated in place ends as the lock step says, and every refusal or trap leaves it as it was |
| Escrow.PayEscrow.ClaimCheque | contracts/soroban/pay-escrow/src/lib.rs:176-201 | in-place claim against the claim step, with its error order |
| Escrow.PayEscrow.RefundCheque | contracts/soroban/pay-escrow/src/lib.rs:208-231 | in-place refund against the refund step; nobody's authorisation is needed |
| Escrow.PayEscrow.ForceCollectCheque | contracts/soroban/pay-escrow/src/lib.rs:246-305 | in-place force collect: window, reuse errors, and a bounce that moves nothing |
| Escrow.PayEscrow.DepositToPool | contracts/soroban/pay-escrow/src/lib.rs:314-343 | in-place deposit, with the checked addition rolling the transfer back |
| Escrow.PayEscrow.WithdrawFromPool | contracts/soroban/pay-escrow/src/lib.rs:346-370 | in-place withdrawal against the withdraw step |
| EscrowSolvency.MoveKeepsHonesty | contracts/soroban/pay-escrow/src/lib.rs:154-155 | a transfer between any two holders, also a self transfer, creates and destroys no tokens |
| EscrowSolvency.CustodyCovers | contracts/soroban/pay-escrow/src/lib.rs:193-195 | in a sound world custody covers every funded cheque and every pool |
| EscrowSolvency.ExcessAfterLock | contracts/soroban/pay-escrow/src/lib.rs:130-171 | a lock adds to custody exactly what it adds to the debts |
| EscrowSolvency.ExcessAfterPayOut | contracts/soroban/pay-escrow/src/lib.rs:193-196 | a payout takes from custody exactly the debt it settles |
| EscrowSolvency.ExcessAfterForceCollect | contracts/soroban/pay-escrow/src/lib.rs:273-291 | a force collect leaves the surplus alone unless it pays the contract itself |
| EscrowSolvency.ExcessAfterDeposit | contracts/soroban/pay-escrow/src/lib.rs:320-336 | a deposit keeps the surplus of every token, also when an empty pool changes token |
| EscrowSolvency.ExcessAfterWithdraw | contracts/soroban/pay-escrow/src/lib.rs:353-366 | a withdrawal keeps the surplus of every token |
| EscrowSolvency.ExcessAfterCall | contracts/soroban/pay-escrow/src/lib.rs:130-370 | no call of any kind shrinks the surplus of custody over debts; it changes by unrecorded gifts alone |
| EscrowSolvency.CallKeepsSound | contracts/soroban/pay-escrow/src/lib.rs:130-370 | every call keeps tokens honest, records positive and every token solvent |
| EscrowSolvency.StepKeepsSound | contracts/soroban/pay-escrow/src/lib.rs:130-370 | so does every event: calls by anyone, time, token movements elsewhere |
| EscrowSolvency.RunKeepsSound | contracts/soroban/pay-escrow/src/lib.rs:130-370 | and every run |
| EscrowSolvency.AlwaysSolvent | contracts/soroban/pay-escrow/src/lib.rs:130-370 | after every run, for every token, the contract holds at least all funded cheques plus all pools, and the surplus never drops below an earlier one |
| EscrowSettlement.FailedCallLeavesWorld | contracts/soroban/pay-escrow/src/lib.rs:141-152 | an error or trap rolls the whole call back |
| EscrowSettlement.UnnamedCallLeavesRecord | contracts/soroban/pay-escrow/src/lib.rs:130-370 | a call touches no cheque record but the one it names |
| EscrowSettlement.SettledActsNoMore | contracts/soroban/pay-escrow/src/lib.rs:184-186 | no call on a settled id succeeds again |
| EscrowSettlement.ForceCollectSettlesInLastDay | contracts/soroban/pay-escrow/src/lib.rs:233-284 | a force collect settles an unused id exactly within 24 hours before expiry, paying in full or bouncing with nothing moved |
| EscrowSettlement.FlowOfAct | contracts/soroban/pay-escrow/src/lib.rs:148-305 | a successful call moves, for every holder and token, the difference between what the record named before and names after |
| EscrowSettlement.SettledExactlyOnce | contracts/soroban/pay-escrow/src/lib.rs:148-305 | over any run an id has at most one lock or force collect, at most one claim or refund after a lock, and its record holds the first call's terms and the state the history names |
| EscrowSettlement.MovedWhatRecordNames | contracts/soroban/pay-escrow/src/lib.rs:148-305 | over any run the net tokens moved for an id are exactly those its record's state names |
| EscrowSettlement.RecordsEvolve | contracts/soroban/pay-escrow/src/lib.rs:73-81 | recorded terms never change, and only a funded record changes state, by being claimed or refunded |
| EscrowSettlement.OnePayoutAlwaysOpen | contracts/soroban/pay-escrow/src/lib.rs:176-231 | at every clock value exactly one of claim and refund passes its time guard, and it goes through in full |
| EscrowSettlement.NoStuckFunds | contracts/soroban/pay-escrow/src/lib.rs:176-231 | in every state a run reaches exactly one payout is open, it pays in full and nobody else, and the other one is refused |
| EscrowSettlement.OverdueEventRefundsOrLeaves | contracts/soroban/pay-escrow/src/lib.rs:203-231 | past expiry one event either refunds the cheque or leaves its record alone |
| EscrowSettlement.RefundableUntilRefunded | contracts/soroban/pay-escrow/src/lib.rs:203-231 | once refundable, always refundable until the one refund |
| EscrowSettlement.OverdueStaysRefundable | contracts/soroban/pay-escrow/src/lib.rs:203-231 | the same from any moment of any run of a deployed contract |
| EscrowPools.OnlyOwnerMovesPool | contracts/soroban/pay-escrow/src/lib.rs:314-370 | nothing but the owner's own authorised deposit or withdrawal changes a pool |
| EscrowPools.StakeOfStep | contracts/soroban/pay-escrow/src/lib.rs:314-370 | one event changes what a pool holds of a token by exactly what its owner moved |
| EscrowPools.PoolConservation | contracts/soroban/pay-escrow/src/lib.rs:314-370 | over any run deposits minus withdrawals of a token equal the pool if it holds that token, else zero |
| EscrowPools.PoolsStayInRange | contracts/soroban/pay-escrow/src/lib.rs:82-89 | a pool's amount stays within 0 and the i128 maximum |
| EscrowPools.DepositNeverOverflows | contracts/soroban/pay-escrow/src/lib.rs:332-336 | a deposit succeeds exactly when authorised, positive, in the pool's token and covered; the checked addition never traps |
| EscrowPools.WithdrawNeverShort | contracts/soroban/pay-escrow/src/lib.rs:346-370 | a withdrawal within the pool's amount always succeeds and pays in full |
| EscrowPools.WithdrawUndoesDeposit | contracts/soroban/pay-escrow/src/lib.rs:314-370 | withdrawing what was just deposited restores every balance and holding |
| EscrowAnswers.OnlySignersPay | contracts/soroban/pay-escrow/src/lib.rs:139-370 | no call lowers the balance of a holder who has not authorised it, the contract's own apart |
| EscrowAnswers.NobodyPaysUnsigned | contracts/soroban/pay-escrow/src/lib.rs:139-370 | over any run no call has ever taken from a holder who did not sign it |
| EscrowAnswers.LockAnswers | contracts/soroban/pay-escrow/src/lib.rs:139-155 | exactly when a lock succeeds, traps, and is refused with each error |
| EscrowAnswers.ClaimAnswers | contracts/soroban/pay-escrow/src/lib.rs:176-196 | the same for a claim; in a sound contract custody is never the reason |
| EscrowAnswers.RefundAnswers | contracts/soroban/pay-escrow/src/lib.rs:208-226 | the same for a refund, which nobody needs to sign |
| EscrowAnswers.ForceCollectRefusals | contracts/soroban/pay-escrow/src/lib.rs:255-274 | exactly when a force collect traps and is refused with each error |
| EscrowAnswers.DepositAnswers | contracts/soroban/pay-escrow/src/lib.rs:314-343 | which deposits are refused and why, and the pool record and balances a deposit leaves, stamped with its time |
| EscrowAnswers.DepositTraps | contracts/soroban/pay-escrow/src/lib.rs:314-336 | exactly when a deposit traps in any contract, an amount the checked addition cannot hold included, and that it then leaves nothing behind |
| EscrowAnswers.WithdrawAnswers | contracts/soroban/pay-escrow/src/lib.rs:346-370 | exactly when a withdrawal succeeds, traps, and is refused, and the pool record it leaves |
| EscrowAnswers.ShortCustodyTraps | contracts/soroban/pay-escrow/src/lib.rs:193-361 | in any contract a claim, refund or withdrawal that custody does not cover is rolled back whole |
| ChequeStore.Repository.CreateReservedCheque | backend/services/cheque/repository.go:40-76 | all three inserts or none, and which constraint refuses |
| ChequeStore.Repository.Transition | backend/services/cheque/repository.go:128-161 | guarded update, log insert and release of the reservation together, or nothing |
| ChequeStore.Repository.RecordDeposit | backend/services/cheque/repository.go:261-274 | adds to the row, or inserts it |
| ChequeStore.Repository.RecordWithdraw | backend/services/cheque/repository.go:284-296 | subtracts but not below zero; a missing row is reported |
| ChequeStore.StoryIsShort | backend/services/cheque/repository.go:121-127 | a log whose entries climb in rank has at most five entries |
| ChequeStore.StoryNeverLoopsBack | deploy/migrations/000001_init.up.sql:40-52 | a climbing log never contains the move that would leave its present state |
| ChequeStore.UniqueNeverRefuses | backend/services/cheque/repository.go:135-153 | a transition commits exactly when its state guard matches a row: the unique constraint never refuses |
| ChequeStore.CreateKeepsConsistent | backend/services/cheque/repository.go:40-76 | creation keeps reservations, logs, one open cheque per sender and one cheque per request |
| ChequeStore.TransitionKeepsConsistent | backend/services/cheque/repository.go:128-161 | so does every move of an open cheque to a higher rank |
| ChequeStore.OneOpenChequePerSender | deploy/migrations/000001_init.up.sql:54-66 | while a sender has an open cheque, creating another is refused and changes nothing |
| ChequeAnswers.CreateAnswers | backend/services/cheque/repository.go:40-76 | in terms of rows alone: exactly which new cheques are written, what is written, and which refusal meets each of the others |
| ChequeService.ApprovedAlone | backend/services/cheque/service.go:394-399 | an acknowledgement is two transactions, approve then close |
| ChequeService.BuildClaimAlone | backend/services/cheque/service.go:335-352 | with the chain readable, a claim transaction is handed out exactly when the row is not overdue by the server clock and the contract accepts a simulated claim |
| ChequeService.ForcedAlone | backend/services/cheque/service.go:440-464 | the attempt is marked exactly when the contract accepts the simulated force collect of the row's terms, and refused otherwise |
| ChequeService.AskChainAlone | backend/services/cheque/service.go:307-333 | what the repair branch does for each answer of the chain |
| ChequeService.ChequeService.ServeConfirmLock | backend/services/cheque/service.go:248-271 | run straight through, tables and reply are those of the interleavable request left alone |
| ChequeService.ChequeService.ServeClaimXdr | backend/services/cheque/service.go:287-352 | the same for the claim request, with its repair from chain and its closing simulation |
| ChequeService.ChequeService.ServeConfirmClaim | backend/services/cheque/service.go:357-377 | the same for the claim confirm |
| ChequeService.ChequeService.ServeAcknowledge | backend/services/cheque/service.go:382-401 | the same for the receipt |
| ChequeService.ChequeService.ServeForceCollectXdr | backend/services/cheque/service.go:406-464 | the same for the force-collect request: the simulation comes before the best-effort marker |
| ChequeService.ChequeService.ServeConfirmForceCollect | backend/services/cheque/service.go:472-493 | the same for the force-collect confirm |
| ChequeService.ChequeService.ServeMarkRefunded | backend/services/cheque/service.go:510-523 | the same for the refund record the scheduler asks for |
| ChequeService.ChequeService.VerifyListed | backend/services/cheque/service.go:561-575 | the verification loop compares every open cheque with the chain and skips every terminal one |
| ChequeMirror.ChainFactsPersist | contracts/soroban/pay-escrow/src/lib.rs:148-305 | a chain state a confirm may rely on is never taken back |
| ChequeMirror.GroundedMoves | backend/services/cheque/service.go:248-523 | every move a request makes leaves an open state, climbs in rank and goes where the chain already is |
| ChequeMirror.NextKeepsInv | backend/services/cheque/service.go:248-523 | chain steps, the scheduler's refunds, creations, requests' single steps and crashes all keep mirror, tables and requests in flight behind the chain |
| ChequeMirror.PlayKeepsInv | backend/services/cheque/service.go:248-523 | so does every interleaving of them |
| ChequeMirror.ChainPlays | contracts/soroban/pay-escrow/src/lib.rs:130-370 | the chain inside an interleaving is itself an admissible contract run, so its theorems apply |
| ChequeAnswers.StrangersGetNothing | backend/services/cheque/service.go:248-493 | a request about an unknown cheque or by somebody who is not its party changes nothing and is refused |
| ChequeAnswers.ConfirmAnswers | backend/services/cheque/service.go:248-493 | a party's confirm is granted and moves the row exactly when it is where the confirm starts |
| ChequeAnswers.ConfirmedClaimAnswers | backend/services/cheque/service.go:287-352 | the ordinary claim: tables untouched, granted exactly while the row is not overdue and the record funded and unexpired, and which refusal otherwise |
| ChequeAnswers.OtherClaimAnswers | backend/services/cheque/service.go:300-334 | a claim on any other row, or with the chain unreadable, is refused and changes nothing |
| ChequeAnswers.ClaimLosesChain | backend/services/cheque/service.go:308-311 | a chain that goes away half-way ends a claim without a change |
| ChequeAnswers.ForceCollectAnswers | backend/services/cheque/service.go:406-464 | exactly when a force collect is granted and marked, and which refusal otherwise |
| ChequeAnswers.SweepAnswers | backend/services/scheduler/service.go:83-191 | the sweep submits refunds exactly for overdue funded rows, and records exactly those the contract carried out |
| ChequeAnswers.SyncAnswers | backend/services/cheque/service.go:561-575 | for each mirror state, exactly the chain records `/sync` reports as a match |
| ChequeAnswers.MismatchIsLag | backend/services/cheque/service.go:859-877 | a mismatch reported for an open row behind the chain is always a row that has not yet followed it |
| ChequeGuarantees.EvidenceIsHistory | backend/services/cheque/service.go:241-247 | the state a confirm relies on, funding, claimed, refunded, or collected and bounced, holds exactly when the contract's history of the id contains that success |
| ChequeGuarantees.MirrorNeverAhead | backend/services/cheque/service.go:248-523 | in every interleaving each mirror state is backed by the chain state it stands for, and three states are never entered |
| ChequeGuarantees.NextLeavesRow | backend/services/cheque/repository.go:135-144 | a row that no request in flight can move keeps state, log and reservation through any event |
| ChequeGuarantees.TerminalMatches | backend/services/cheque/service.go:859-877 | a terminal row satisfies the state comparison with the chain |
| ChequeGuarantees.TerminalRowsMatchForever | backend/services/cheque/service.go:561-575 | row, log, reservation and chain state of a terminal cheque never change again and keep matching: `/sync` may skip it |
| ChequeGuarantees.OpenExactlyWhileReserved | deploy/migrations/000001_init.up.sql:54-66 | in every interleaving a cheque is open exactly while its reservation is active, and no sender has two |
| ChequeGuarantees.LogClimbs | backend/services/cheque/repository.go:121-161 | every log is a climbing path from draft to the present state, at most five entries, and never blocks a guarded move |
| ChequeGuarantees.RequestAnsweredOnce | deploy/migrations/000003_cheque_request_id.up.sql:1-14 | a receiver's payment request is answered by one cheque at most |
| ChequeGuarantees.AlreadyClaimedIsTrue | backend/services/cheque/service.go:320-325 | an "already claimed" answer is true on chain when given and ever after |
| ChequeGuarantees.ConfirmsReplaySafely | docs/reference/platform/p2p-cek-ve-havuz-mimarisi.md:130-134 | a confirm served twice ends as a confirm served once |
| ChequeGuarantees.ClaimRepairsFromChain | backend/services/cheque/service.go:273-352 | after a lost lock confirm the claim request repairs the row from the chain, in each of the three cases, and answers as the simulated claim does |
| ChequeGuarantees.UnusedStaysReserved | docs/reference/platform/p2p-cek-ve-havuz-mimarisi.md:366-369 | while an id is unused on chain its reservation stays active, whatever the clock says: the promised release never happens |
| ChequeGuarantees.ExpiredIsStillReserved | docs/reference/platform/p2p-cek-ve-havuz-mimarisi.md:366-369 | a reachable system whose never-funded cheque expired at any earlier time and is still open and reserved |
| ChequeStuck.StuckExactly | backend/services/cheque/service.go:248-523 | for every open cheque of every reachable system: some honest future moves its row if and only if it is not dead, that is, none of the four combinations of row, record and marks in flight |
| ChequeStuck.AttemptMovesExactly | backend/services/cheque/service.go:406-493 | a marked row whose id is force-collected on its own terms only moves in some honest future if and only if the contract has settled the attempt, or the id is unused, the attempt collectable and the cheque not expired on chain |
| ChequeStuck.DeadForever | backend/services/cheque/service.go:248-523 | from a dead row on, in every honest future: same row, log and active reservation, still dead, no other cheque for the sender |
| ChequeStuck.NeverGranted | backend/services/cheque/service.go:287-464 | in every interleaving, no request for a claim or a force collect that arrives while its row is dead is ever granted a transaction |
| ChequeStuck.ClaimInFlightIsGranted | backend/services/cheque/service.go:306-319 | a claim request that read the row before it was marked is still granted on a dead row, and repairs nothing |
| ChequeDeaths.LockedAfterMarkIsReachable | docs/reference/platform/p2p-cek-ve-havuz-mimarisi.md:462-467 | the first way to die happens: marked in the last day after a simulation that would bounce, then locked |
| ChequeDeaths.BouncedWithoutMarkIsReachable | backend/services/cheque/service.go:457-463 | the second happens: the mark is lost, and the force collect carried out |
| ChequeDeaths.RefundedByOthersIsReachable | docs/reference/platform/p2p-cek-ve-havuz-mimarisi.md:257-273 | the third happens: somebody other than the scheduler submits the refund of an expired cheque |
| ChequeDeaths.RefundLostIsReachable | backend/services/scheduler/service.go:181-191 | the third happens again: the scheduler's refund goes through and its record is lost |
| ChequeDeaths.RefundHalfRecordedIsReachable | backend/services/cheque/service.go:510-523 | the fourth happens: a crash between the two transactions that record a refund |
| ChequeStuck.MoverMoves | backend/services/cheque/service.go:248-493 | the honest confirm or receipt that fits the chain's record moves the row |
| ChequeStuck.FundedMoves | backend/services/scheduler/service.go:83-191 | a funded cheque's row is moved by the sweep once the wait is over: listed, refunded, recorded |
| ChequeTerms.FundedOnOwnTerms | backend/services/cheque/service.go:165-168 | a row in the pool has the terms of the chain's record if and only if the first successful call of its id was the lock built for the row and the amount fits the contract's type |
| ChequeTerms.OwnLocksFund | backend/services/cheque/service.go:165-168 | in every play whose locks of the id are all the one built for the row, the row in the pool has the chain's terms if and only if its amount fits |
| ChequeTerms.OtherTermsAreBelieved | backend/services/cheque/service.go:241-271 | a lock for another receiver under the same id, once confirmed, puts the row in the pool all the same |
| ChequeTerms.OtherTermsAreRepaired | backend/services/cheque/service.go:306-319 | so does the repair from the chain when the row's receiver asks for a claim |
| PoolCache.PoolReconciler.Reconcile | backend/services/cheque/service.go:820-853 | cache and view after one reconcile, for a readable, unreadable and unwritable world |
| PoolCache.ReconcileAnswers | backend/services/cheque/service.go:820-853 | exactly when a reconcile writes and when its view is verified, with the row's amount and decimals |
| PoolCache.DepositConfirmAdds | backend/services/cheque/repository.go:261-274 | a deposit confirm raises its owner's row by exactly its amount, sets the decimals, and touches no other row |
| PoolCache.WithdrawConfirmSubtracts | backend/services/cheque/repository.go:284-296 | a withdrawal confirm lowers the row by exactly its amount if covered, to zero if not, keeps the decimals, and touches no other row |
| PoolCache.ReconcileHeals | backend/services/cheque/service.go:809-853 | an undisturbed reconcile against a readable chain makes the cache the contract's own pool, whatever it held; a second writes nothing, an unreadable chain changes nothing, other owners keep theirs |
| PoolCache.DriftExactly | backend/services/cheque/repository.go:261-314 | over every run of confirms, chain steps and half-done reconciles the cache exceeds the contract's pool by the confirms since the last write-back plus the part of withdrawals the cached amount did not cover less what the pool gained since that write-back's answer: equal if and only if these match |
| PoolCache.WrittenBackExactly | backend/services/cheque/service.go:820-853 | exactly when a disturbed reconcile still leaves the contract's amount behind |
| PoolCache.VerifiedViewIsChains | backend/services/cheque/service.go:820-853 | a view marked verified is the contract's pool as of the moment the chain was asked |
| PoolCache.LateConfirmCountsTwice | backend/services/cheque/service.go:681-691 | a run from a fresh system in which a deposit confirmed after the reconcile that saw it doubles the cached amount until the next reconcile |
| PoolCache.CacheNeverNegative | backend/services/cheque/repository.go:276-296 | no interleaving of confirms, chain steps and half-done reconciles makes a cached amount negative |
| TxStore.TxRepository.BeginSubmission | backend/services/tx/repository.go:41-71 | the key claims once; the submission row is overwritten but keeps its old hash |
| TxStore.TxRepository.CompleteSubmission | backend/services/tx/repository.go:81-94 | verdict statement, then key statement |
| TxStore.TxRepository.ReleaseSubmission | backend/services/tx/repository.go:107-119 | failure statement, then deletion of a pending key only |
| TxStore.TxRepository.ReapExpiredPendingKeys | backend/services/tx/repository.go:163-171 | deletes exactly the expired pending keys and reports how many |
| TxSubmit.TxService.Submit | backend/services/tx/service.go:67-164 | straight through it ends as its statement-by-statement form, and asks the chain exactly when the key has no row |
| TxSubmit.SubmitAnswers | backend/services/tx/service.go:67-164 | a submit served alone: replay, refusal, or for a new key exactly what it answers and what both tables hold, success recorded only for a success |
| TxOnce.CallsBounded | backend/services/tx/service.go:64-164 | in every interleaving with releases, reaps and crashes, chain calls for a key are at most one plus its deletions, and final verdicts at most one plus its reaps |
| TxOnce.NextKeepsOneOwner | backend/services/tx/repository.go:29-71 | no two live submits hold a key, and a held key is pending |
| TxOnce.NextKeepsTables | backend/services/tx/repository.go:81-119 | every statement, crash and reap keeps the two tables in agreement while each key has one owner |
| TxOnce.TablesAlwaysAgree | backend/services/tx/repository.go:81-171 | every key has a submission row, and a done key's row says success exactly if its cached response does, with the same hash and code, in every run whose reaps spare living submits |
| TxOnce.FinishedStays | backend/services/tx/service.go:73-82 | one event leaves a done key, its submission row and its calls alone, any reap included |
| TxOnce.DoneIsForever | backend/services/tx/service.go:64-82 | once a key is done and no submit holds it, then in every interleaving, reaps included: same rows, no further chain call, every later submit replays the same response |
| TxOnce.ReleasedKeyBeginsAgain | backend/services/tx/repository.go:31-40 | a fully released key is claimed again over its retained submission row |
| TxOnce.OneFinalVerdict | backend/services/tx/service.go:64-164 | a key never reaped gets one final verdict at most, and every answer ever given is it or a retryable bad-sequence rejection |
| TxOnce.FinalVerdictEndsCalls | backend/services/tx/service.go:141-164 | after a final verdict the chain is not asked for the key again until it is reaped, even if recording it was cut short |
| TxReaps.SparesExactlyYoung | backend/services/tx/repository.go:154-171 | a reap spares every living submit if and only if it comes within a day of each one's claim |
| TxReaps.PunctualSpares | backend/services/tx/service.go:178-190 | in every run in which no submit lives longer than a day at a reap, every reap spares the living and the tables agree throughout |
| TxReaps.BoundIsAttained | backend/services/tx/service.go:178-190 | for every number of reaps some run with young submits only brings one final verdict more than reaps |
| TxReaps.DoneChangesExactly | backend/services/tx/repository.go:81-94 | a done key's cached answer can still change if and only if a living submit of the key is calling the chain or about to write a different answer |
| TxReaps.ReapUnderLivingOwner | backend/services/tx/service.go:178-190 | a run from the beginning in which a submit older than a day is reaped, two final verdicts come in and the cached response is overwritten |
| HceTag.HceService.ProcessCommandApdu | frontend/android/app/src/main/kotlin/com/ghostellar/ghostellar_app/nfc/HceService.kt:74-137 | response, draft and callbacks for any command; no delivered buffer is ever written again |
| HceTag.HceService.AcceptChunk | frontend/android/app/src/main/kotlin/com/ghostellar/ghostellar_app/nfc/HceService.kt:103-133 | the in-place PUT branch fills its buffer as the draft grows |
| HceTag.HceService.CopyInto | frontend/android/app/src/main/kotlin/com/ghostellar/ghostellar_app/nfc/HceService.kt:125-125 | copies a chunk into its place and leaves the rest of the buffer alone |
| HceTag.HceService.OnDeactivated | frontend/android/app/src/main/kotlin/com/ghostellar/ghostellar_app/nfc/HceService.kt:139-144 | a lost link drops the half-written payload |
| HceAnswers.UnknownCommands | frontend/android/app/src/main/kotlin/com/ghostellar/ghostellar_app/nfc/HceService.kt:74-79 | short and unknown commands are answered 6D 00 and change nothing |
| HceAnswers.SelectAnswers | frontend/android/app/src/main/kotlin/com/ghostellar/ghostellar_app/nfc/HceService.kt:78-86 | a SELECT is accepted exactly for the application's identifier and then drops the draft |
| HceAnswers.GetAnswers | frontend/android/app/src/main/kotlin/com/ghostellar/ghostellar_app/nfc/HceService.kt:88-101 | each answer to a GET, and that none changes the draft |
| HceAnswers.RefusedPuts | frontend/android/app/src/main/kotlin/com/ghostellar/ghostellar_app/nfc/HceService.kt:103-115 | a PUT while writes are off or with a bad length changes nothing |
| HceAnswers.FirstPuts | frontend/android/app/src/main/kotlin/com/ghostellar/ghostellar_app/nfc/HceService.kt:109-133 | a first chunk begins anew, and may complete or overrun its length |
| HceAnswers.LaterPuts | frontend/android/app/src/main/kotlin/com/ghostellar/ghostellar_app/nfc/HceService.kt:119-133 | a later chunk is taken exactly where the last one ended; one that overruns ends the transfer |
| HceRuns.PutInStep | frontend/android/app/src/main/kotlin/com/ghostellar/ghostellar_app/nfc/HceService.kt:103-133 | an accepted PUT completes or extends the draft exactly as the transcript shows |
| HceRuns.DeliveredWhatWireShows | frontend/android/app/src/main/kotlin/com/ghostellar/ghostellar_app/nfc/HceService.kt:66-145 | for any events a live draft is shorter than its total of at most 4096, is the concatenation of chunks accepted since its header, and the deliveries are exactly those the transcript completes |
| HceTransfer.ChunkIsTaken | frontend/android/app/src/main/kotlin/com/ghostellar/ghostellar_app/nfc/HceService.kt:103-133 | a fitting chunk is appended, the first one from any prior draft |
| HceTransfer.WriteRoundTrip | docs/reference/platform/nfc-qr-temasli-odeme.md:39-47 | from any prior state 1 to 4096 bytes in any non-empty chunks that fit a command are delivered once, byte for byte |
| HceTransfer.GetReply | frontend/android/app/src/main/kotlin/com/ghostellar/ghostellar_app/nfc/HceService.kt:88-101 | a GET answers length, chunk and status, and reports a read exactly with the last chunk |
| HceTransfer.Get | frontend/lib/data/nfc/nfc_frame.dart:83-84 | the same through the command the reader sends |
| HceTransfer.ReadOffer | frontend/lib/data/nfc/nfc_frame.dart:95-131 | the reader loop ends with exactly the tag's offer, and the tag reports one read |
| HceTransfer.Put | frontend/lib/data/nfc/nfc_frame.dart:86-88 | one chunk through the command the reader sends |
| HceTransfer.PutPayload | frontend/lib/data/nfc/nfc_frame.dart:133-146 | the writer loop delivers exactly its payload, once, whatever the tag was doing before |
| Money.ZeroPad | backend/pkg/money/money.go:80-85 | zeros in front up to the width |
| Money.ZerosString | backend/pkg/money/money.go:114-123 | that many zeros, none for a negative count |
| Money.AmountString | backend/pkg/money/money.go:54-78 | the printed form of any raw value at any scale |
| Money.ParseAmount | backend/pkg/money/money.go:93-112 | refuses outside the grammar or with too many fractional digits, otherwise the integer of the filled-up digits |
| Money.TextDenotes | backend/pkg/money/money.go:61-61 | the digits printed for a number denote it and start with no spare zero |
| Money.TextIsUnique | backend/pkg/money/money.go:61-61 | a digit string without spare zeros is the printed form of its value |
| Money.SpellThenTakeApart | backend/pkg/money/money.go:87-100 | the pattern's captures find sign, whole and fraction of every spelling again |
| Money.TakeApartThenSpell | backend/pkg/money/money.go:87-100 | the captures lose nothing of the input |
| MoneyRoundTrip.PrintThenParse | backend/pkg/money/money.go:54-112 | parsing a printed amount gives it back, for every raw value and scale |
| MoneyRoundTrip.AcceptedExactly | backend/pkg/money/money.go:87-104 | the accepted strings are exactly those the grammar spells with few enough fractional digits |
| MoneyRoundTrip.ParseIsExact | backend/pkg/money/money.go:89-112 | the parsed raw value is the string's rational value times ten to the scale, never rounded |
| MoneyRoundTrip.RenderIsCanonical | backend/pkg/money/money.go:54-78 | what is printed has all fractional digits, no spare zeros and no negative zero |
| MoneyRoundTrip.CanonicalIsRendered | backend/pkg/money/money.go:54-112 | every canonical spelling is what printing its parsed value gives |
| MoneyRoundTrip.ParseThenPrint | backend/pkg/money/money.go:54-112 | printing a parsed string gives the canonical spelling of the same value, the input itself exactly when that was canonical |
| ScVal.EncodeThenDecode | backend/pkg/stellarx/stellarx.go:69-87 | decoding an encoding gives the wrapped number, the number itself exactly when in range |
| ScVal.WrapIsUnique | backend/pkg/stellarx/stellarx.go:71-87 | there is one i128 congruent to a number modulo 2^128 |
| ScVal.DecodeThenEncode | backend/pkg/stellarx/stellarx.go:141-155 | decoding is in range and encoding gives the halves back |
| ScVal.DecodersAgree | backend/pkg/money/money.go:130-150 | the money package's decoder agrees with the codec's on all halves |
| Preauth.TextReadsBack | backend/services/cheque/service.go:429-432 | the amount's text in the row reads back as the amount |
| Preauth.SecondsSurvive | backend/services/cheque/service.go:445-445 | storing the expiry in microseconds does not change its second |
| Preauth.RebuiltIsSigned | backend/services/cheque/service.go:425-446 | the six rebuilt arguments are the six signed ones, read by the contract as a force collect of the cheque's terms, the amount exactly when it fits an i128 |
| Preauth.SimulatedIsSigned | backend/services/cheque/service.go:443-451 | the force collect simulated from a row is the one the sender signed for it, and the lock built from it the one handed out |
| Preauth.EitherPathSameTerms | backend/services/cheque/service.go:165-193 | the lock arguments and the signed arguments, built apart, are read by the contract as calls with one set of terms |
| Scheduler.RefundSweeper.RecordFailure | backend/services/scheduler/service.go:115-122 | one more failure, next attempt after the clamped doubling |
| Scheduler.RefundSweeper.SweepExpiredCheques | backend/services/scheduler/service.go:83-105 | failure table and attempts after a sweep, turn by turn |
| Scheduler.DelayIsCappedDoubling | backend/services/scheduler/service.go:119-119 | clamping the shift at six loses nothing: the delay is the doubled minute capped at an hour, for every count |
| Scheduler.RunRemembers | backend/services/scheduler/service.go:83-137 | over any run the table holds each streak's length and its exact next attempt, and attempts keep their distance |
| Scheduler.RetryRate | backend/services/scheduler/service.go:83-137 | the k-th consecutive failed attempt comes at least 63 + 60(k - 7) minutes after the first for k of 7 and more, and the next one waits again |
| Scheduler.HeldBackExactly | backend/services/scheduler/service.go:108-137 | after any run a cheque is held back exactly until the capped doubling after its last failure has passed |
| Scheduler.SweepTriesAllDue | backend/services/scheduler/service.go:79-105 | a sweep tries exactly the listed cheques not in backoff, each once, in order, whatever fails |

## Left out

- ChequeGuarantees.MirrorNeverAhead: assumes honest confirms, as the service itself does; a caller that confirms what never happened can put the mirror ahead.
- ChequeGuarantees.TerminalRowsMatchForever: safety only; a crash between a refund's submission and `MarkRefunded`, or a lost confirm, can leave an open row behind the chain for ever.
- TxOnce.TablesAlwaysAgree: asks reaps to spare living submits; `TxReaps.SparesExactlyYoung` says when they do.
- ChequeStuck.StuckExactly: an honest future may use an unused id on other terms than the row's, as anybody can on chain; for marked rows `ChequeStuck.AttemptMovesExactly` excludes that.
- HceTransfer.ReadOffer: offers of more than 65535 bytes, whose length two bytes cannot carry, are outside; the reader's own cap and its refusal of an empty offer are kept.
- HceTransfer.PutPayload: the tag accepts writes throughout; a refusal or a lost link ends the loop early and is covered by `HceRuns.DeliveredWhatWireShows` alone.
- Preauth.RebuiltIsSigned: expiry seconds fit 64 bits, and times before the epoch are not modelled.
- The database's clock and the submit service's are one in `TxOnce`, except that a reap may come with any time.
- Scheduler.SweepTriesAllDue: the listed ids are distinct, as a query over a primary key gives them.
- `CreateCheque`'s checks before the reservation (receiver, trustline, balance, request id form, fee headroom) and the XDRs it returns: a cheque may reach the reservation transaction with any terms, which covers fewer checks rather than more.
- A missing, unreadable or wrongly signed stored pre-authorisation makes `ForceCollectXDR` fail; here it is a simulation without an answer.
- Submitting a transaction is a chain step of its own or one `ChainAnswer`; building one always succeeds. XDR, strkey, SHA-256, signatures and the authorisation preimage are not modelled, authorisation is a set of addresses. The stored entry names the force collect alone (`backend/pkg/stellarx/stellarx.go:316`), so a host that wants the token transfer inside it authorised too refuses the simulation of one that would pay; that is a simulation without an answer here, and the runs above use one that bounces.
- Storage TTL and archival, fees, trustlines, issuer freezes and clawbacks: records are permanent and transfers fail only for lack of balance.
- Contract events, `get_cheque`, `get_pool` and `bump_instance`: no state of their own.
- `audit_log`, `updated_at`, `lock_tx_hash`, causes, and ledger sequence columns: written unguarded and read by no guarantee.
- `request_hash`, purpose and owner address of an idempotency key are never compared by the code, so the model has no such columns.
- A database error other than a violated constraint is a crash between two steps; Postgres itself is atomic transactions, guarded updates and the named constraints.
- `Sync`'s listing and its row limit, ledger and trustline fields; only the verification loop and the reconcile are modelled.
- The decimals column of a pool row is carried but its smallint range is not.
- A restart of the scheduler forgets the failure table; the run theorems are about one process. Dead-letter logging is left out.
- HTTP handlers, middleware, configuration, the anchor services, JWTs, and the Flutter and Swift sources other than the reader loops.
- The map of callbacks in the Kotlin companion object is the outcome `read`/`written` of a command; concurrent changes to it during one command are not modelled.

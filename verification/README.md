# OffPay: models and proofs

OffPay lets two offline neighbours pay each other over a mesh and protects them with a
watchtower on the gateway. This project models the parts of its three arms on which
money depends, and proves what they promise.

* **XRP arm.** One payment channel as a step system. The payer signs cumulative claims,
  the payee stores and acknowledges them, a worker feeds the tower with pre-signed
  blobs, the payee may redeem on its own, the tower polls the ledger, and the ledger
  has an open and a validated view and a clock. Requests and replies may be late, lost
  or repeated, the peer may claim anything, and every process may crash at any step.
* **Ethereum arm.** The queues and senders of the leaves, the tower that keeps the
  newest state per channel, the dispute on the Adjudicator, and the updates that a node
  makes and accepts.
* **Cardano arm.** The wallet inside the Hydra head and the event log on which its
  commands wait.

## How it is built

Code of the sources that changes state step by step is a class, and each of its methods
is one critical section or one command, proved against a specification function. The
step systems interleave the same functions.

| file | content |
|---|---|
| `Options`, `XrpTypes`, `PayChanLedger`, `Amounts` | the values, the ledger rules for payment channels, printing and parsing of amounts |
| `StateFile` | `State.save` on a disk that tells apart what processes see and what a crash leaves |
| `XrpNodeSpec`, `XrpTowerSpec` | what each critical section of `Node` and `Tower` does |
| `XrpNode`, `XrpTower`, `LedgerPort` | the classes `Node` and `Tower`, and the ledger as one node sees it |
| `XrpWorld` | the step system |
| `XrpSafety`, `XrpRuns` | the invariant of every step, and what it means for whole runs |
| `XrpFeed`, `XrpPayments`, `XrpExchange` | no lost notification; payer and payee never diverge; the next payment goes through |
| `XrpRedeem`, `XrpBooks` | what the payee's own redeem pays; honest bookkeeping |
| `XrpSettlement`, `XrpFailures` | the tower meets its deadline; which events lose a claim |
| `XrpProgress`, `XrpGuarantee` | the clock never gets stuck; what was acknowledged is paid |
| `XrpWitnesses` | runs from the start that break each condition and end in the failure |
| `TowerSchedule`, `XrpFleet` | the delay that one tower thread with many channels can cause; every claim it holds is paid all the same |
| `PerunTower`, `PerunFeed`, `PerunOrder`, `PerunDispute`, `PerunNode` | the Ethereum arm |
| `HydraHead`, `HydraEvents` | the Cardano arm |

A signature is modelled by what it signs, so it cannot be made for another key, channel
or amount. Time is an integer in any unit. A crash and the following restart are one
step; a process that is down is one that takes no step. In the settlement results the
tower needs no time besides its sleep between polls, its wait for a blob and its work
for other channels, and a submitted blob gets into the next ledger or into none. An
exception in `submit_blob` ends the tower process, so it is a crash.

## Where the code differs from what one might expect

* `xrp-mvp/README.md:135-137` says that a lost acknowledgement makes the counters
  diverge and the next claim stale. The code keeps the raised counter
  (`xrp-mvp/xrppay/xrppay.py:404-405`), so this does not happen: see
  `XrpPayments.PaymentsAreAccepted`. It would happen with two overlapping `pay`
  commands (`XrpNodeSpec.OverlapLosesCounter`), which the payment results exclude.
* The tower does not always save the newest claim. A close transaction of the payee that
  was started with an older claim can land first and close the channel for less
  (`XrpWitnesses.UndercutHappens`). `XrpSettlement.SettlesExactly` shows that this is the
  only way to miss the deadline in runs without a fatal event.
* `submit_blob` marks a record as submitted before it submits, and never submits it
  again. A crash in between loses the claim, and so does a blob that no ledger takes
  (`XrpFailures.MarkedIsNeverRetried`, `XrpWitnesses.CrashHappens`,
  `XrpWitnesses.DropHappens`). Nothing else does: any other crash or failed ledger read
  costs one poll, and a dropped blob whose record was replaced costs the wait for it
  (`XrpFailures.FailureExactly`).
* `submit_blob` stores the result of a blob in whatever record is there when the result
  arrives, and a blob that lands after the expiration succeeds without paying. Either
  makes the tower report too much (`XrpWitnesses.OverReportHappens`,
  `XrpWitnesses.LateReportHappens`), and `_redeem` can take other credit for its own
  (`XrpWitnesses.OverRecordHappens`). `XrpTowerSpec.ReportTrueExactly`,
  `XrpBooks.RedeemTrueExactly` and `XrpBooks.HonestExactly` say exactly when.
* A second `chan_open` for the same channel makes the payee forget its claim
  (`XrpNodeSpec.SecondOpenForgets`); the step system sends one.
* A trim of the event log moves every mark. `HydraEvents.TrimLosesExactly` says exactly
  when `wait_pred` can then miss the event it should find.
* A tower of the Ethereum arm keeps its channels in memory only. After a restart it
  refuses every state until a leaf sends a start again, which a leaf does only when it
  restarts itself (`PerunFeed.RestartForgets`, `PerunFeed.StaysForgotten`). An offline
  leaf then loses its protection (`PerunDispute.RestartHappens`), unless the newest
  version is registered already (`PerunDispute.RestartExactly`).

## Model

| member | source | states |
|---|---|---|
| PayChanLedger.ApplyConserves | xrp-mvp/README.md:25-34 | a claim transaction neither creates nor destroys drops: what leaves the channel is paid out or returned, a failed transaction changes nothing, and a payment raises the balance exactly to the claimed amount |
| PayChanLedger.PayeeClaimFate | xrp-mvp/README.md:31-34 | the complete fate of a signed claim of the payee: gone, expired, already paid, too large, or paid in full |
| PayChanLedger.ForgedClaimFails | xrp-mvp/README.md:31-34 | a claim that the owner of the key did not sign over this channel and amount changes nothing |
| PayChanLedger.ExpiredPaysNothing | xrp-mvp/README.md:36-41 | whatever is applied to an expired channel deletes it and pays nothing |
| PayChanLedger.PayerCloseFate | xrp-mvp/README.md:36-41 | a close by the payer deletes exactly an expired or paid-out channel, otherwise it schedules the deletion and never postpones one |
| Amounts.XrpPrints | xrp-mvp/xrppay/xrppay.py:62-65 | the printed form is a minus sign for a negative amount, the whole part, and the fraction without trailing zeros if there is one |
| Amounts.RoundTrip | xrp-mvp/xrppay/xrppay.py:62-69 | parsing undoes printing for every amount up to 100 billion XRP and refuses what is printed for any other amount, negative ones included; nothing prints as an empty string |
| Amounts.XrpInjective | xrp-mvp/xrppay/xrppay.py:62-65 | two different amounts never print alike |
| Amounts.ParsesPlainDecimal | xrp-mvp/xrppay/xrppay.py:68-69 | every plain decimal with at most six digits after the point has the value of its digits without the point, shifted by six places, with or without leading and trailing zeros |
| Amounts.RefusesFinerThanDrops | xrp-mvp/xrppay/xrppay.py:68-69 | more than six digits after the point are refused |
| StateFile.SaveIsAtomic | xrp-mvp/xrppay/xrppay.py:144-162 | a crash after any number of operations of `save`, with the text written in any number of pieces, leaves the complete old or the complete new state, always the new one once `save` is through, and a disk on which `save` works again |
| StateFile.SaveStores | xrp-mvp/xrppay/xrppay.py:151-162 | after `save` the new text is stored durably |
| StateFile.State.constructor | xrp-mvp/xrppay/xrppay.py:144-149 | a start finds the stored state, or the default if there is none |
| StateFile.State.Save | xrp-mvp/xrppay/xrppay.py:151-162 | `save` performs exactly the operations of SaveIsAtomic in that order, with the state in memory as the text; when it returns, every later restart finds that state |
| XrpNodeSpec.ClaimAcceptedExactly | xrp-mvp/xrppay/xrppay.py:260-289 | a claim is accepted if and only if it is for this channel, grows, is funded and carries the payer's signature over this amount; a rejection changes nothing; the record stays good |
| XrpNodeSpec.OpenAcceptedExactly | xrp-mvp/xrppay/xrppay.py:241-258 | an opening is accepted if and only if the channel is on the ledger, pays this node and comes from the peer; key and funding are those of the ledger entry, and nothing is claimed yet |
| XrpNodeSpec.PaymentSignedExactly | xrp-mvp/xrppay/xrppay.py:383-401 | a payment is signed if and only if it is forced or within the funding; the counter rises by its amount, and the claim verifies over exactly that total |
| XrpNodeSpec.RedeemPaysExactly | xrp-mvp/xrppay/xrppay.py:453-470 | a redeem is refused if and only if nothing is new and no close is asked for; on a live channel it pays all that the best claim is worth beyond the balance and deletes the channel exactly if a close is asked for; with a claim that is paid already it fails |
| XrpNodeSpec.PushedExactly | xrp-mvp/xrppay/xrppay.py:329-345 | nothing is pushed if and only if the tower is known to hold the best claim, otherwise a blob that on a live channel pays all that the best claim is worth; the amount known to be with the tower never falls |
| XrpNodeSpec.PaymentsRecordedExactly | xrp-mvp/xrppay/xrppay.py:471-513 | what the redeem and the watcher record: the larger claim if something was paid or reported, and that the channel is gone |
| XrpNodeSpec.SecondOpenForgets | xrp-mvp/xrppay/xrppay.py:241-258 | a second `chan_open` keeps the best claim if and only if there was none |
| XrpNodeSpec.RollbackUndoesSign | xrp-mvp/xrppay/xrppay.py:383-412 | a rejected payment leaves the payer's record as it was |
| XrpNodeSpec.OverlapLosesCounter | xrp-mvp/xrppay/xrppay.py:383-412 | with two overlapping payments the payee accepts the second, and after the rollback for the first the counter still covers the claim of the payee if and only if both amounts are zero |
| XrpTowerSpec.HoldKeepsLargest | xrp-mvp/xrppay/xrppay.py:691-704 | while a record is not done the tower keeps the larger claim, and it answers with an amount it holds; only a larger claim, or one for a channel that it is done with, makes a new record |
| XrpTowerSpec.ReportTrueExactly | xrp-mvp/xrppay/xrppay.py:743-766 | the amount the tower reports as redeemed is covered by what the ledger paid if and only if the blob landed in time and its record was not replaced by a larger claim, or that much had been paid before |
| XrpNode.Node.constructor | xrp-mvp/xrppay/xrppay.py:642-650 | a started node has one notification queued if it has a tower |
| XrpNode.Node.OnChanOpen | xrp-mvp/xrppay/xrppay.py:241-258 | both refusals, or a fresh record that is on disk when the reply leaves |
| XrpNode.Node.OnClaim | xrp-mvp/xrppay/xrppay.py:260-289 | the reply and the new state; an accepted claim is on disk before the acknowledgement, a rejected one touches neither memory nor disk; the version in the reply is the one after the claims that other handlers took meanwhile |
| XrpNode.Node.TakeNotifications | xrp-mvp/xrppay/xrppay.py:303-306 | all queued notifications collapse into one push |
| XrpNode.Node.PushCheck | xrp-mvp/xrppay/xrppay.py:314-320 | whether to push, and whether a ticket is missing |
| XrpNode.Node.PushTicket | xrp-mvp/xrppay/xrppay.py:325-327 | the ticket is on disk before a blob can use it |
| XrpNode.Node.PushRecord | xrp-mvp/xrppay/xrppay.py:343-345 | the amount known to be with the tower never falls, and is on disk |
| XrpNode.Node.RedeemRecord | xrp-mvp/xrppay/xrppay.py:471-479 | what the balance difference makes of the record |
| XrpNode.Node.WatchGone | xrp-mvp/xrppay/xrppay.py:506-513 | the record once the channel is gone |
| XrpNode.Node.CmdOpen | xrp-mvp/xrppay/xrppay.py:359-374 | a second outgoing channel is refused; a new one starts from zero and is on disk; of two overlapping opens the second to finish replaces the record of the first |
| XrpNode.Node.PaySign | xrp-mvp/xrppay/xrppay.py:383-401 | the raised counter is on disk before the claim leaves, and an unfunded payment changes nothing |
| XrpNode.Node.CmdPay | xrp-mvp/xrppay/xrppay.py:383-412 | a rejected payment restores the whole state on disk, an unanswered one keeps the counter, a paid one raises it by the amount |
| XrpNode.Node.PayerClose | xrp-mvp/xrppay/xrppay.py:414-446 | it ends, with the distance of the ledger clock to the expiration as measure, whatever the payee does meanwhile; it returns with the channel gone; it sends at most one finalizing transaction, and none before the expiration; if a close of the payee wins against a transaction in flight it fails without recording that the channel is closed |
| XrpNode.Node.MarkOutClosed | xrp-mvp/xrppay/xrppay.py:443-445 | the closed flag is set and on disk |
| XrpTower.Tower.OnClaimMessage | xrp-mvp/xrppay/xrppay.py:691-704 | the new record is on disk before the answer, and other channels are left alone |
| XrpTower.Tower.TakeForSubmission | xrp-mvp/xrppay/xrppay.py:745-750 | the blob of the current record, marked as submitted on disk |
| XrpTower.Tower.StoreResult | xrp-mvp/xrppay/xrppay.py:760-764 | the result goes into the record that is there now |
| XrpTower.Tower.MarkGone | xrp-mvp/xrppay/xrppay.py:729-734 | the record is done, on disk |
| LedgerPort.Port.Sleep | xrp-mvp/xrppay/xrppay.py:431-437 | while a node sleeps the ledger clock moves on, and the channel may vanish, be redeemed in part or get more funding, but is otherwise the same |
| LedgerPort.Port.Submit | xrp-mvp/xrppay/xrppay.py:197-204 | a submission returns after the ledger that applied it, and finds the channel gone if somebody else deleted it first |
| XrpSafety.PayerStepSafe | xrp-mvp/xrppay/xrppay.py:383-412 | every step of the payer keeps the invariant of the channel |
| XrpSafety.PayeeStepSafe | xrp-mvp/xrppay/xrppay.py:241-289 | every claim, honest or not, every save, notification, acknowledgement and crash keeps it |
| XrpSafety.WorkerStepSafe | xrp-mvp/xrppay/xrppay.py:299-346 | every step of the worker that feeds the tower keeps it |
| XrpSafety.RedeemStepSafe | xrp-mvp/xrppay/xrppay.py:453-532 | every step of redeemer and watcher keeps it |
| XrpSafety.TowerStepSafe | xrp-mvp/xrppay/xrppay.py:691-767 | every step of the tower keeps it |
| XrpSafety.ChainStepSafe | xrp-mvp/README.md:25-41 | every ledger step, with own redeem and blob in any order, keeps it |
| XrpRuns.ClaimsAreSafe | xrp-mvp/xrppay/xrppay.py:260-289 | in every run: all drops are accounted for, paid <= best claim <= funding <= channel, memory and disk in order, valid signatures, and every acknowledged claim on disk |
| XrpRuns.TowerIsBetween | xrp-mvp/xrppay/xrppay.py:314-346 | in every run, while the channel is on the ledger: what the payee believes is with the tower <= what the tower holds <= best claim on disk |
| XrpRuns.BestNeverShrinks | xrp-mvp/xrppay/xrppay.py:260-289 | over any run the claim on disk and the amount paid never decrease, and the claim in memory does only in a crash |
| XrpFeed.NoLostNotification | xrp-mvp/xrppay/xrppay.py:292-346 | in every interleaving a claim that the tower is not known to hold is queued, about to be queued, or still before the worker |
| XrpFeed.AtRestTowerHoldsBest | xrp-mvp/xrppay/xrppay.py:299-346 | at rest the tower holds exactly the best claim |
| XrpPayments.NeverDiverge | xrp-mvp/xrppay/xrppay.py:383-412 | in every run with losses, rollbacks and crashes the payee's claim is covered by the payer's counter, in memory and on disk, and so is every claim sent and not rejected |
| XrpPayments.PaymentsAreAccepted | xrp-mvp/xrppay/xrppay.py:260-289 | the payee accepts every positive payment that the payer still waits for, whatever was lost before |
| XrpExchange.PaymentGoesThrough | xrp-mvp/xrppay/xrppay.py:383-412 | after any run with losses, rollbacks and crashes every positive payment within the funding can be made, and then payer, payee and the payee's disk agree on the old counter plus the amount |
| XrpRedeem.StartTakesBest | xrp-mvp/xrppay/xrppay.py:453-464 | a redeem starts if and only if something is new or a close is asked for, and takes the best claim |
| XrpRedeem.RedeemPaysBest | xrp-mvp/xrppay/xrppay.py:453-482 | in every run, a redeem that is read at some moment and applied before the expiration leaves at least the best claim of that moment paid, whatever happened in between, and closes the channel exactly if that was asked |
| XrpBooks.RedeemTrueExactly | xrp-mvp/xrppay/xrppay.py:465-479 | the claim recorded by `_redeem` is covered by the ledger unless the channel had expired, other credits exceeded other fees, and the claim was larger than what was paid before; exactly then it is not |
| XrpBooks.RedeemedIsPaid | xrp-mvp/xrppay/xrppay.py:453-513 | in every careful run `redeemed_drops` never exceeds what the ledger paid, in memory and on disk, and neither does what the tower reports |
| XrpBooks.HonestExactly | xrp-mvp/xrppay/xrppay.py:453-513 | after any run that left the books honest, a step keeps them honest if and only if it is careful: it records no redeem that paid nothing while other credits hid that, and stores no result of a blob in a record with a larger claim, or of a blob that landed too late |
| XrpSettlement.SettlesInTime | xrp-mvp/xrppay/xrppay.py:712-767 | from a close request on, every interleaving without a fatal event pays what the tower holds within a poll, a ledger interval and the time spent on crashes, failed reads, other channels and dropped blobs, and the channel never leaves with less |
| XrpSettlement.TowerSettles | xrp-mvp/xrppay/xrppay.py:712-767 | the same for every run before and every run after the close request |
| XrpSettlement.SettlesExactly | xrp-mvp/xrppay/xrppay.py:453-482 | the deadline is met in all runs that leave room and have no fatal event if and only if the claim is paid already or the payee has no undercutting close of its own under way |
| XrpSettlement.TowerStaysQuiet | xrp-mvp/xrppay/xrppay.py:735-741 | in every run, as long as no validated ledger shows a close request, the tower has submitted nothing and marked nothing |
| XrpSettlement.DecidesExactly | xrp-mvp/xrppay/xrppay.py:728-741 | the tower submits if and only if the entry shows an expiration, the claim exceeds the balance and the copy was not submitted; a channel that is gone is done with |
| XrpSettlement.LooksAgainExactly | xrp-mvp/xrppay/xrppay.py:716-734 | the tower looks at a channel again unless its blob succeeded or the channel is gone |
| XrpFailures.FailureExactly | xrp-mvp/xrppay/xrppay.py:743-767 | any event after the close, in any run from the start, leaves the claim safe in all continuations that leave room and have no fatal event, if and only if it is not a crash between mark and submission and not the drop of the last blob of a submitted record |
| XrpFailures.MarkedIsNeverRetried | xrp-mvp/xrppay/xrppay.py:743-767 | after a fatal event the tower submits nothing any more, whatever it is told, short of a larger claim, and only the payee itself can still get the claim paid |
| XrpFailures.FatalLoses | xrp-mvp/xrppay/xrppay.py:743-767 | after a fatal event a running tower and ledger and a payer that finalizes its close end with the claim unpaid |
| XrpWitnesses.UndercutHappens | xrp-mvp/xrppay/xrppay.py:453-482 | a run from the start of a channel in which a close of the payee with an older claim of 5 closes the channel although 10 are acknowledged and with the tower |
| XrpWitnesses.CrashHappens | xrp-mvp/xrppay/xrppay.py:743-751 | a run from the start to the fatal crash, and its continuation to a closed channel with less paid than the tower held |
| XrpWitnesses.DropHappens | xrp-mvp/xrppay/xrppay.py:751-767 | a run from the start to a blob that no ledger takes, and its continuation to a closed channel with less paid than the tower held |
| XrpWitnesses.OverReportHappens | xrp-mvp/xrppay/xrppay.py:743-766 | a run from the start in which the tower reports 10 as redeemed and the ledger paid 5 |
| XrpWitnesses.FalseReportIsRecorded | xrp-mvp/xrppay/xrppay.py:506-513 | it goes on to a payee whose disk says 10 redeemed |
| XrpWitnesses.LateReportHappens | xrp-mvp/xrppay/xrppay.py:743-766 | a run from the start in which the tower cannot read the ledger until the channel has expired, and then reports 5 as redeemed although nothing was paid |
| XrpWitnesses.OverRecordHappens | xrp-mvp/xrppay/xrppay.py:465-479 | a run from the start in which the payee records 5 as redeemed and the ledger paid nothing |
| XrpProgress.TimePasses | xrp-mvp/xrppay/xrppay.py:712-741 | the tower and the ledger can always move the clock on |
| XrpProgress.PaidWithoutThePayee | xrp-mvp/xrppay/xrppay.py:655-659 | tower and ledger steps alone lead to the payment |
| XrpGuarantee.FeedCatchesUp | xrp-mvp/xrppay/xrppay.py:299-346 | after any run from the start, steps without failure bring the feed to rest with the best claim at the tower |
| XrpGuarantee.AcknowledgedIsPaid | xrp-mvp/README.md:43-56 | with the feed at rest when the close request is validated, everything the payee has ever acknowledged is paid in time, in every run without a fatal event that leaves room |
| TowerSchedule.EveryCloseIsReached | xrp-mvp/xrppay/xrppay.py:712-741 | with n distinct records, whenever a close becomes visible there is a visit of its record at most poll + 40(n-1) seconds later after which the claim is submitted, unless it was not worth it at that visit |
| TowerSchedule.SubmittedForAReason | xrp-mvp/xrppay/xrppay.py:735-741 | every claim that was submitted belongs to a channel that showed an expiration at the visit that submitted it, and was worth redeeming then |
| TowerSchedule.NeverShownNeverSubmitted | xrp-mvp/xrppay/xrppay.py:735-741 | a channel that never shows an expiration is never submitted |
| TowerSchedule.SubmittedAtMostOnce | xrp-mvp/xrppay/xrppay.py:738-750 | no record is submitted twice |
| TowerSchedule.PassCost | xrp-mvp/xrppay/xrppay.py:717-767 | a pass takes time only for the records it submits |
| TowerSchedule.Loop.Turn | xrp-mvp/xrppay/xrppay.py:713-741 | one turn of the loop is one round of the schedule, cut short at the first ledger read that fails; it submits only for channels that show an expiration with a claim worth redeeming |
| TowerSchedule.Loop.SubmitBlob | xrp-mvp/xrppay/xrppay.py:743-767 | a submission blocks the loop until the second in which the blob is first found validated, or for 40 seconds |
| XrpFleet.EveryHeldClaimIsPaid | xrp-mvp/xrppay/xrppay.py:712-767 | with one thread for n channels and a settle delay of more than a ledger interval, a poll and n - 1 waits, the claim of every channel is paid in time in every joint run from the start, if no record of another channel is replaced meanwhile and nothing fails for this one |
| XrpFleet.FleetSettles | xrp-mvp/xrppay/xrppay.py:712-767 | the general form, with crashes, reads that end a turn, dropped blobs and replaced records, each with its cost |
| XrpFleet.SpentInFleet | xrp-mvp/xrppay/xrppay.py:717-767 | what the other channels cost one channel is at most one wait for every blob that they may still submit |
| XrpFleet.ThreadRun | xrp-mvp/xrppay/xrppay.py:712-741 | in every joint run the thread works for one channel at a time |
| XrpFleet.TimeCanPass | xrp-mvp/xrppay/xrppay.py:713-757 | time stands still only while the thread has something to do or a ledger is due |
| PerunTower.ApplyKeepsGood | ethereum-mvp/perunpay/tower.go:276-333 | after every message the two maps have the same keys and the watcher has got a rising sequence that ends with the version held |
| PerunTower.StateAnswered | ethereum-mvp/perunpay/tower.go:280-306 | a start or update with a state is answered OK if and only if the channel is watched or it is a start, and the version is older than the one held or the watcher works; then the tower holds the larger version and the watcher has got it; ERR changes nothing |
| PerunTower.StatelessRefused | ethereum-mvp/perunpay/tower.go:286-288 | a message without a state is answered ERR and changes nothing |
| PerunTower.StopAnswered | ethereum-mvp/perunpay/tower.go:307-314 | a stop takes the channel out of both maps, even if the watcher fails |
| PerunTower.StoppedUntilStart | ethereum-mvp/perunpay/tower.go:301-306 | after that every update is answered ERR until a start |
| PerunTower.HoldsAllSent | ethereum-mvp/perunpay/tower.go:276-333 | with a working watcher, from a start to the stop, the tower holds the maximum of ALL versions sent, in any order and number |
| PerunTower.KeepsTheMaximum | ethereum-mvp/perunpay/tower.go:276-333 | between first start and stop, the version held is the maximum of the versions applied, for every order, interleaving and duplication |
| PerunTower.OrderDoesNotMatter | ethereum-mvp/perunpay/tower.go:319-333 | runs that applied the same versions end with the same version |
| PerunTower.DuplicateIsHarmless | ethereum-mvp/perunpay/tower.go:283-285 | a repeated message changes no version |
| PerunTower.OtherChannelsUntouched | ethereum-mvp/perunpay/tower.go:276-317 | a message for one channel leaves both maps of the others alone |
| PerunTower.Server.ApplyMessage | ethereum-mvp/perunpay/tower.go:276-317 | the method does what the specification says, on every kind of message and every failure |
| PerunFeed.TeeWatcher.Enqueue | ethereum-mvp/perunpay/tower.go:106-124 | a full queue drops the new item and keeps the old ones, and other channels are left alone |
| PerunOrder.LeavesInOrder | ethereum-mvp/perunpay/tower.go:106-148 | what a leaf begins to deliver is what it has queued, in the same order and without gaps |
| PerunFeed.TeeWatcher.StartWatchingLedgerChannel | ethereum-mvp/perunpay/tower.go:167-177 | the tower hears of a channel only if the local watcher takes it |
| PerunFeed.TeeWatcher.PublishState | ethereum-mvp/perunpay/tower.go:196-202 | a state goes to the tower even if the local watcher fails |
| PerunFeed.TeeWatcher.StopWatching | ethereum-mvp/perunpay/tower.go:183-188 | a stop goes to the tower even if the local watcher fails |
| PerunFeed.SendItem | ethereum-mvp/perunpay/tower.go:126-148 | however often a message is applied before the answer arrives, and whether or not the watcher works each time, the tower ends with its old version or with that of a single delivery, and after OK with the latter |
| PerunFeed.DrainedQueueIsHeld | ethereum-mvp/perunpay/tower.go:106-148 | a drained queue without an ERR means that the tower holds at least every version that leaf queued and that was not dropped or lost in a restart of the leaf or of the tower |
| PerunFeed.OneLeafExact | ethereum-mvp/perunpay/tower.go:106-148 | with one leaf, which does not restart, the tower holds exactly the newest of them |
| PerunFeed.ForgottenStep | ethereum-mvp/perunpay/tower.go:303-305 | a tower that does not watch a channel, with no start on its way, stays so, and every state of the channel is answered ERR and dropped by the leaf |
| PerunFeed.StaysForgotten | ethereum-mvp/perunpay/tower.go:126-148 | the same for whole runs, until a leaf sends a start again |
| PerunFeed.RestartForgets | ethereum-mvp/perunpay/tower.go:239 | a restart of the tower leads there if and only if no leaf has a start waiting |
| PerunDispute.TowerRefutes | ethereum-mvp/README.md:27-32 | the registered version never decreases, and a tower that reacts within the challenge duration makes the channel conclude with at least its own version |
| PerunDispute.AnsweredRunConcludesNewest | ethereum-mvp/README.md:27-32 | a register step of the tower with the newest version before the timeout decides the outcome |
| PerunDispute.ClockRuns | ethereum-mvp/README.md:43-47 | the reaction bound never stops the clock |
| PerunDispute.VictimIsSafe | ethereum-mvp/README.md:34-47 | feed and dispute interleaved: a leaf whose queue is drained before the tower has answered the dispute can go offline, and the channel concludes with the newest version |
| PerunDispute.NewestExactly | ethereum-mvp/README.md:27-47 | at any moment every honest continuation without a restart of the tower concludes with the newest version if and only if it is registered, or the tower holds it and no older registration has escaped its answer |
| PerunDispute.RestartExactly | ethereum-mvp/perunpay/tower.go:239 | at any moment of any run from the start, the newest version is safe after a restart of the tower if and only if it is registered already |
| PerunDispute.RestartHappens | ethereum-mvp/perunpay/tower.go:239 | a run from the start in which a leaf meets the hypothesis of VictimIsSafe, the tower restarts, and the channel concludes with an older version |
| PerunNode.NeverRobbed | ethereum-mvp/perunpay/node.go:221-232 | over any run of proposals a node ends with at least what it had minus its own payments, and the total stays |
| PerunNode.PaymentBetweenNodes | ethereum-mvp/perunpay/node.go:353-367 | between two such nodes exactly the affordable, non-negative payments go through |
| PerunNode.AllPaymentsGoThrough | ethereum-mvp/perunpay/node.go:353-367 | any sequence of payments that the payer can afford in total goes through, moves exactly the sum, raises the version by their number and leaves the channel open |
| PerunNode.FinalStateEnds | ethereum-mvp/perunpay/node.go:380-406 | `settle` makes a final state with the same balances, which the peer accepts and nothing follows |
| PerunNode.Node.Current | ethereum-mvp/perunpay/node.go:172-189 | the newest acting channel, else the newest usable one, else an error exactly if none is usable |
| PerunNode.Node.Forget | ethereum-mvp/perunpay/node.go:191-200 | one occurrence goes, the order stays |
| HydraHead.Wallet.SumByAddress | cardano-mvp/hydrapay/hydrapay.py:88-92 | the sums of exactly the addresses that occur |
| HydraHead.Wallet.PickInput | cardano-mvp/hydrapay/hydrapay.py:334-343 | the first of the largest eligible inputs, none exactly if none is eligible |
| HydraHead.EligibleExactly | cardano-mvp/hydrapay/hydrapay.py:334-361 | an input of the wallet is eligible if and only if it holds nothing but lovelace and the payment from it is balanced with every output at or above the floor |
| HydraHead.Wallet.BuildPayment | cardano-mvp/hydrapay/hydrapay.py:345-363 | when it refuses and why, and the exact payment otherwise |
| HydraHead.PaymentMoves | cardano-mvp/hydrapay/hydrapay.py:352-363 | a confirmed payment moves exactly the amount and adds at most one UTxO |
| HydraHead.PaymentKeepsFloor | cardano-mvp/hydrapay/hydrapay.py:340-361 | whatever is below the floor after a payment was there before it |
| HydraHead.HeadRunConserves | cardano-mvp/hydrapay/hydrapay.py:334-363 | any sequence of confirmed payments, from any UTxO set, conserves the total, moves exactly what was paid, spares the other addresses, creates nothing below the floor and adds at most one UTxO each |
| HydraHead.BuiltIsConfirmable | cardano-mvp/hydrapay/hydrapay.py:352-363 | what the wallet builds can be confirmed |
| HydraEvents.UtxoIsTheLatest | cardano-mvp/hydrapay/hydrapay.py:160-175 | the wallet pays from the latest UTxO set that a message or the answer to a deposit carried |
| HydraEvents.StatusIsTheLatest | cardano-mvp/hydrapay/hydrapay.py:160-207 | the status of the head is what the last message that changes it says |
| HydraEvents.ReadyExactly | cardano-mvp/hydrapay/hydrapay.py:190-199 | the client may fan out if and only if the head said so after it was last closed |
| HydraEvents.SnapshotIsTheLatest | cardano-mvp/hydrapay/hydrapay.py:170-175 | the snapshot number is that of the last confirmed one |
| HydraEvents.SyncIsTheLatest | cardano-mvp/hydrapay/hydrapay.py:160-213 | the node counts as synced as the last message on that says |
| HydraEvents.DepositsAreRecorded | cardano-mvp/hydrapay/hydrapay.py:183-188 | exactly the recorded deposits are remembered |
| HydraEvents.NewestDepositIsLast | cardano-mvp/hydrapay/hydrapay.py:183-187 | the newest deposit is the last one remembered |
| HydraEvents.Client.OnMessage | cardano-mvp/hydrapay/hydrapay.py:147-158 | the log is a suffix of all messages received, and when it is trimmed |
| HydraEvents.Client.RefreshUtxo | cardano-mvp/hydrapay/hydrapay.py:326-329 | a deposit replaces the UTxO set if the node answers with one, and touches nothing else |
| HydraEvents.Client.Mark | cardano-mvp/hydrapay/hydrapay.py:224-226 | a mark is the number of messages received so far, less the trimmed ones |
| HydraEvents.MarkStands | cardano-mvp/hydrapay/hydrapay.py:154-156 | a mark stays right while r messages arrive if and only if mark and r together are within 5000 |
| HydraEvents.Client.WaitPred | cardano-mvp/hydrapay/hydrapay.py:228-241 | the first match at or after the mark, shifted by the trims, however arrivals interleave; a timeout only if there is none |
| HydraEvents.Client.PayAndWait | cardano-mvp/hydrapay/hydrapay.py:366-393 | what a payment reports: a snapshot number if the first message on its transaction after its mark is that snapshot with the transaction in it, invalid if it is the rejection, unconfirmed if there is none; the search starts late only by what was trimmed, which is nothing exactly while mark and arrivals are together within 5000 |
| HydraEvents.TrimLosesExactly | cardano-mvp/hydrapay/hydrapay.py:154-156 | `wait_pred` is right for every log and every predicate if and only if the mark and the messages that arrive after it are together within 5000 |
| HydraEvents.SkipsNoMatch | cardano-mvp/hydrapay/hydrapay.py:154-156 | for one log and predicate it is right if and only if no event that the trims moved across the mark matches |

## Left out

- XrpNode.Node.CmdPay: payments on one node do not overlap; what happens otherwise is XrpNodeSpec.OverlapLosesCounter.
- XrpSettlement.TowerSettles: RPC calls take no time, and a blob that is not in the next ledger is never applied later; fees and load of a public ledger are not modelled.
- XrpPayments.NeverDiverge: the test-only `force` and `forge` commands are not part of the runs.
- XrpBooks.RedeemedIsPaid: restricted to careful runs, because the code does not meet it otherwise; HonestExactly says that the condition is exact.
- PerunFeed.SendItem: no other message reaches the tower between the attempts; the runs of DrainedQueueIsHeld allow that.
- PerunDispute.VictimIsSafe: no restart of the tower after the leaf went offline; RestartExactly and RestartHappens say what it costs. A tower that starts to watch during a dispute handles only the registrations after that.
- TowerSchedule.EveryCloseIsReached: the ledger answers every read; XrpFleet.FleetSettles covers turns that end at a failed read.
- XrpFleet.EveryHeldClaimIsPaid: the ledgers of the channels share the clock and not the transactions, since no transaction touches two channels.
- HydraHead.HeadRunConserves: only confirmed payments, so a payment that the head rejects is no step; the rounding of `to_lovelace` from floating point is not modelled.
- HydraEvents.Client.OnMessage: of the tags that `handle` only logs, one stands for all.
- Sockets, HTTP, JSON, argument parsing, control servers, log texts and latency measurement.
- Cryptography, key files and wallets, except for what a signature says.
- xrpl-py, go-perun, pycardano, hydra-node and the chains, except for the rules stated in PayChanLedger, PerunDispute and PerunNode.
- The contest and deposit timing of Hydra, deposits, close and fanout: they live in hydra-node, and the client only waits for their events.
- Messages to the tower from strangers, wiped state files and a second `chan_open` in the step system.

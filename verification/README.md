# The job and lease engine of symphony, verified

This project models the orchestrator's durable core and proves what it promises. Webhook threads, scheduler workers,
a reconciler and a timer process all act on one database; each store method is one atomic transaction, so everything
that can happen is a sequence of transactions in some order.

| part | files |
|---|---|
| the tables and what each transaction does to them | `Types`, `StoreSpec`, `StoreActions` |
| the store object, one method per transaction, proved against those functions | `JobStore` |
| invariants, and what one transaction may change in a row, the leases and the log | `StoreInvariant`, `StoreSteps` |
| theorems over every run: any processes, any interleaving, any clock | `StoreRuns`, `Fairness`, `Attempts`, `Witnesses` |
| the run of a claimed job: its effect on the row, the history of the tables, and the trace of what it asks, is answered and does | `ClaimedRow`, `History`, `Answers`, `Trace`, `Coordinator` |
| what the rules of a trace imply: how a run goes on and ends, its turns, one pull request across runs | `Verdicts`, `Turns`, `OnePullRequest` |
| recovery of expired leases: the system of passes, its runs, and a pass as code | `Recovery`, `RecoveryRuns`, `RecoveryPass` |
| intake and operator commands; control comments | `Operator`, `ControlComments` |
| routing, the mutation guard, evidence rewrites, string search | `Intake`, `GitHub`, `Evidence`, `Text` |

## How to read it

**Runs of the store.** `StoreActions.IsRun` holds of a sequence of table states and actions that starts with empty
tables. An action carries its own clock reading, and nothing orders the readings unless a theorem says so. `Enabled`
holds what the callers guarantee (a transition never names RUNNING, keeps the lease only for PR_OPEN and REVIEWING, and
no row update carries a snapshot) and what the database may answer (which of several equal rows a claim picks, in which
order rows are reaped). A rejected call leaves the tables alone.

**Runs of a worker.** `Coordinator.Coordinator` is the worker as imperative code. Whatever it asks the outside returns an
arbitrary answer or raises an arbitrary exception; between any two store calls `Others` lets other processes act. Three
kinds of acts are appended to `log`: an answer, by the call that asks for it; an effect, before the call, because it may
happen although the call raises; a check, when it succeeded, with what it compared. An exception is logged with its cause:
the outside raised it, or what the worker had just read made it raise. `Trace.Good` are the rules an act must obey, given
the acts before it. `Compares` says what a check or a cause must have read, `Prepares` what a mutation, turn or command
needs, `Timely` that positions in the history do not go back, and `InOrder` how a run goes on: which act may follow the
last answer, and which state an answer leads to (`Leads`). So a run can neither skip a step nor stop without an answer or
exception that stops it. The lemmas of `Trace`, `Verdicts` and `Turns` turn the rules into statements about positions in
the log. The worker also keeps the history of all store transactions during its run, its own and everybody else's
(`History.IsPast`), and `Trace.Backed` ties every act about the tables to it: renewals, also refused ones, rows that were
read, backoffs, and the conversation the row names while the worker waits. Attempts are counted in the row, and
transitions to PR_OPEN in the event log.

**Recovery.** `Recovery.IsHistory` holds of the runs of a system in which any number of recovery passes list, cancel,
reap, queue again and give up, while all other processes make any other transaction; only recovery reaps, as in the
source. `RecoveryPass.Recoverer` is one pass as code. It keeps the history of everybody's steps, and each method is proved
to extend it to a history of the system whose last tables are the tables of the store.

**Intake.** `Operator.Operator` runs against unrestricted interference. Where a promise needs an undisturbed call, the
object's constant `solo` says so.

## What turned out

- A step leaves the transition table exactly when it reaps a paused, uncanceled REVIEWING or PR_OPEN job, which ends in
  NEEDS_GUIDANCE, or cancels a DONE one (`StoreRuns.EdgeInTableIff`). All three edges are reachable
  (`Witnesses.ReviewingToNeedsGuidance`, `PrOpenToNeedsGuidance`, `DoneToCanceled`).
- A queued job can still hold a lease. It gets there exactly by a retry or resume of an open pull request that kept its
  lease (`Witnesses.BecomesQueuedWithLeaseIff`). If its concurrency key then changes, every legal claim at any later time
  picks this job and is rejected by the one-lease-per-job constraint, although another job could run
  (`Witnesses.RetryBlocksQueue`). A claim of a runnable job is rejected if and only if its row carries a lease
  (`Witnesses.ClaimRejectedIff`).
- Two running jobs can carry the same concurrency key in their rows, when a claim falls between the accepted revision and
  the new key of a retry (`Witnesses.RowKeysMayCoincide`). Exclusion is therefore stated about the keys of the lease rows.
  The rows stop matching the leases exactly by rewriting the key of a job that holds a lease (`StoreRuns.KeysMatchIff`);
  without such a rewrite the rows' keys differ, too (`StoreRuns.RunKeysMatch`).
- The licence to return an expired job to the queue is about the row as listed. When no transaction touched the job since,
  it is as good for the row the reap finds (`RecoveryRuns.UntouchedIsSafe`). An attempt that begins in between always
  escapes (`RecoveryRuns.LateAttemptEscapes`), and such a run exists (`RecoveryRuns.ConversationOutlivesRecovery`).
- Giving up an expired open pull request whose conversation cannot be canceled is refused by the transition table
  (`Recovery.GiveUpRefusedIff`), and a refusal ends the whole recovery pass (`RecoveryRuns.RefusalEndsPass`).
- A provider exceeds its limit exactly when it is at the limit and somebody makes it the implementer of another job with
  an unexpired lease (`StoreRuns.ProviderLimitIff`); without that it never does (`StoreRuns.ProviderCapacityHolds`).
- While a worker waits for a turn, its row names a conversation at the provider that works. During a correction this is
  the one it waits for exactly when the result of the first turn named no other one (`Turns.NamedRightIff`), because the
  correction resumes the conversation the run was started in (src/symphony/coordinator.py:926-930, 975-977).
- The clock is read before the transaction begins (src/symphony/store.py:435-438, 545-548), so readings may decrease in
  commit order. Then a lease that had run out can be renewed and the global limit exceeded (`Witnesses.LateRenewal`).
- Re-routing an unchanged issue for the recorded review provider is stable exactly when that provider's name is not empty
  (`Intake.RecheckStableIff`). The last writer of the validation section wins exactly when the overwritten text does
  not contain the next section's marker (`Evidence.LastUpdateWinsIff`).
- A second application of a control comment means that before it a holder of this comment outlived its lock, or failed
  between applying and recording it (`ControlComments.AppliedAtMostOnce`); each alone suffices
  (`ControlComments.CrashAppliesTwice`, `LateHolderAppliesTwice`). A comment can still be applied exactly when it is
  unrecorded or a process has passed the second check (`ControlComments.CanApplyIff`).
- When GitHub fails right after a retry was recorded, the job waits in the queue with its old specification: a queued row
  fits the live issue exactly when GitHub was reached, or it fitted before (`Operator.Operator.Control`).

## Model

| member | source | states |
|---|---|---|
| StoreRuns.EdgeInTableIff | src/symphony/store.py:16-40 | in every run a step keeps a job's state or follows the table exactly when it is not a reap of a paused, uncanceled REVIEWING or PR_OPEN job or a cancel of a DONE one; those end in NEEDS_GUIDANCE and CANCELED |
| StoreRuns.OffTableEnds | src/symphony/store.py:382-404 | where the two off-table steps lead |
| StoreRuns.RunningHoldsClaimKey | src/symphony/store.py:428-501 | in every reachable state each running job has held, without a gap since its claim, the lease row under the key it had then; that key carried no lease before, expired or not |
| StoreRuns.RunningKeysDiffer | src/symphony/store.py:428-501 | two running jobs were claimed under different keys |
| StoreRuns.KeysMatchIff | src/symphony/coordinator.py:413-419 | the leases stop matching the keys in their jobs' rows exactly by a rewrite of the key of a job that holds a lease |
| StoreRuns.RowKeysDiffer | src/symphony/store.py:428-501 | two running jobs whose rows carry the keys of their leases carry different keys |
| StoreRuns.RunKeysMatch | src/symphony/store.py:428-501 | in a run without such a rewrite the rows of running jobs carry different keys in every state |
| StoreRuns.LeaseMirror | src/symphony/store.py:403-418 | in every reachable state a row's lease owner and expiry are set exactly when its lease row exists, with equal values |
| StoreRuns.CapacityHolds | src/symphony/store.py:439-441 | with clock readings that do not decrease in commit order and one global limit, the number of unexpired leases never exceeds the limit |
| StoreRuns.ProviderCapacityHolds | src/symphony/store.py:442-480 | with such a clock, and claims that allow a provider at most so many jobs, its unexpired leases never exceed that number, as long as nobody makes it the implementer of a job that holds a lease |
| StoreRuns.ProviderLimitIff | src/symphony/store.py:442-480 | within its limit, a provider gets beyond it in one transaction exactly when it is at the limit and is made to implement another job with an unexpired lease |
| StoreRuns.ExpiredStaysExpired | src/symphony/store.py:544-558 | once a lease has run out its row never changes again while it exists: nothing renews it between its listing and its reap |
| StoreRuns.ClaimedSnapshotStable | src/symphony/store.py:317-350 | from a claim until the job is queued again the claimed specification does not change, under any interleaving |
| StoreRuns.AttemptsHaveConversations | src/symphony/store.py:503-542 | with providers that return a conversation, a job with a counted attempt has a stored conversation |
| StoreRuns.AttemptsFixBranch | src/symphony/store.py:317-350 | hence the attempt counter never decreases and the branch is fixed once an attempt was counted |
| StoreRuns.RunStopsOk | src/symphony/store.py:361-426 | in every reachable state a logged pause has its flag up, and a logged cancel its own, until a resume or retry of the job is logged |
| StoreRuns.ClaimAfterStop | src/symphony/store.py:645-749 | between a pause or cancel of a job and a later claim of it the log contains a resume or retry of it |
| StoreRuns.RequeuedIsSelectable | src/symphony/store.py:720-735 | a stopped job or open pull request that was resumed or retried is a retry request, and can be chosen at any time exactly when no lease is stored under its key and its provider is not backed off |
| StoreRuns.PollutedAttemptsForgotten | src/symphony/store.py:683-735 | attempts counted before any conversation existed are forgotten by a resume or retry when they failed in the provider, or in the setup without a logged attempt, and there is no pull request |
| StoreRuns.OtherAttemptsKept | src/symphony/store.py:683-735 | a job whose transitions mention none of these failures keeps its attempts |
| StoreRuns.DeliveriesKept | src/symphony/store.py:291-308 | recorded deliveries are never forgotten |
| StoreRuns.NewOnlyOnce | src/symphony/store.py:291-308 | in every run a delivery is new at most once: at every later recording it is already in the table |
| StoreInvariant.NextKeepsInv | src/symphony/store.py:63-76 | every transaction keeps the tables consistent: one row per issue, one lease per job and key, mirrored lease columns, leases only in RUNNING, REVIEWING, PR_OPEN and QUEUED, and always in RUNNING |
| StoreInvariant.RunKeepsInv | src/symphony/store.py:78-206 | hence the tables are consistent in every reachable state |
| StoreInvariant.LeasedIffHeld | src/symphony/store.py:403-418 | in consistent tables a lease row exists exactly when both lease columns are set |
| StoreInvariant.LiveOrExpired | src/symphony/store.py:439-441 | a lease counts against the limits exactly while its owner may renew it, and exactly while its job may not be reaped |
| StoreInvariant.ReapAllShape | src/symphony/store.py:382-426 | a reap of several jobs recovers exactly those rows and removes exactly their leases; the order shows only in the log |
| StoreInvariant.RenewKeepsInv | src/symphony/store.py:544-558 | a renewal keeps the tables consistent: the lease row and its mirror move together |
| StoreInvariant.TransitionKeepsInv | src/symphony/store.py:560-609 | a transition of a caller that respects the conventions keeps the tables consistent |
| StoreInvariant.ControlKeepsInv | src/symphony/store.py:645-749 | every operator command keeps the tables consistent |
| StoreInvariant.ClaimKeepsInv | src/symphony/store.py:482-501 | a claim keeps the tables consistent, also when the lease insert is rejected |
| StoreInvariant.ReapKeepsInv | src/symphony/store.py:361-426 | a reap keeps the tables consistent |
| StoreInvariant.EnsureKeepsInv | src/symphony/store.py:241-289 | an intake keeps one row per repository and issue |
| StoreSteps.NextRows | src/symphony/store.py:560-769 | what one transaction may do to a row: exactly when it leaves the transition table; a resume or retry queues the row exactly when it is not running, under review or done, and then it is a retry request without a stop flag; where cancel, pause and reap leave it; which transactions write the state, key, routing, snapshot, branch, attempt counter, retry and stop flags, and under which condition; issue and creation time never change |
| StoreSteps.NextLeases | src/symphony/store.py:361-609 | a lease row is kept, renewed while unexpired, or newly inserted by a claim within the global limit and its provider's; a removed one belongs to a job that is not running |
| StoreSteps.LegalWithin | src/symphony/store.py:439-480 | a legal claim finds fewer unexpired leases than the global limit, and fewer of the chosen job's provider than that provider may have: one unless it is configured |
| StoreSteps.NextLogged | src/symphony/store.py:428-749 | the log is append-only, and what each kind of appended event says about the transaction that wrote it |
| StoreSpec.LastClaim | src/symphony/store.py:463-468 | the time of a repository's latest claim: none if there is none, otherwise attained and maximal |
| JobStore.Store.ClaimNext | src/symphony/store.py:428-501 | in the words of the tables: a choice finds fewer unexpired leases than the global limit, fewer of its provider than that provider may have, and no row that could be chosen before it; without a choice the limit is reached or every selectable row's provider has its fill; the tables are left alone when the lease insert is rejected |
| JobStore.Store.TakeLease | src/symphony/store.py:482-500 | the lease row, the job row that mirrors it and the event are written together |
| JobStore.Store.SelectRows | src/symphony/store.py:453-473 | the claim query: exactly the selectable rows, in claim order |
| JobStore.FirstIsLegal | src/symphony/store.py:474-482 | the first row of the ordered scan whose provider has capacity is a legal choice |
| JobStore.LegalMeans | src/symphony/store.py:439-482 | the same for every legal answer of the transaction |
| JobStore.ChosenNotBehind | src/symphony/store.py:461-470 | the claim order in words: retry requests first, then the repository never or longest ago claimed, then the row updated and then created earlier |
| JobStore.InsertSorted | src/symphony/store.py:461-470 | inserting a row at its place keeps the claim order and the set of rows |
| JobStore.BeforeIsOrder | src/symphony/store.py:461-470 | the claim order is a strict weak order |
| JobStore.Store.EnsureJob | src/symphony/store.py:241-289 | one job per issue: the existing row unchanged, or the new row and its event |
| JobStore.Store.UpdateSnapshotIfUnclaimed | src/symphony/store.py:317-350 | refreshes snapshot, routing, branch and key of the issue's row exactly when it is queued without attempts |
| JobStore.Store.AcceptSnapshot | src/symphony/store.py:751-769 | replaces the snapshot exactly of a queued job |
| JobStore.Store.FindJob | src/symphony/store.py:217-223 | the row of the issue, none exactly when there is none |
| JobStore.Store.BeginAttempt | src/symphony/store.py:503-542 | counts an attempt exactly of a running job and clears its retry flag |
| JobStore.Store.RenewLease | src/symphony/store.py:544-558 | succeeds exactly when the owner holds an unexpired lease of the job, and moves lease and row together |
| JobStore.Store.Transition | src/symphony/store.py:560-609 | succeeds exactly for a known job and an edge of the table or the same state; a rejected call changes nothing |
| JobStore.Store.UpdateJob | src/symphony/store.py:611-643 | sets exactly the given columns of a known job |
| JobStore.Store.RequestControl | src/symphony/store.py:645-749 | applies the command to the row of the issue, changes nothing when there is none or the command is unknown; a resume or retry leaves the row queued exactly when it was not running, under review or done |
| JobStore.Store.ApplyCancel | src/symphony/store.py:656-666 | raises the flag, and the row is canceled exactly unless it is active |
| JobStore.Store.ApplyPause | src/symphony/store.py:667-678 | raises the flag, and moves exactly a queued row |
| JobStore.Store.ApplyRequeue | src/symphony/store.py:679-748 | afterwards the row is queued exactly when it was not running, under review or done; a stopped job or open pull request is then a retry request without a stop flag; leases are left alone, and the counter is reset only for a job without conversation and pull request |
| JobStore.Store.QueueAgain | src/symphony/store.py:711-735 | the row part of a resume or retry, with or without the counter reset |
| JobStore.Store.ExpiredLeaseJobs | src/symphony/store.py:352-359 | exactly the rows whose lease has run out, each once, oldest first |
| JobStore.Store.ReapExpiredLeases | src/symphony/store.py:361-426 | recovers exactly the selected rows with an expired lease, each once |
| JobStore.Store.Recover | src/symphony/store.py:382-425 | cancel flag before pause flag before the interrupted state; lease and columns cleared |
| JobStore.Store.RecordDelivery | src/symphony/store.py:291-308 | true exactly for a delivery not in the table, which is in it afterwards; all others stay as they were |
| JobStore.Store.AcquireOperationLock | src/symphony/store.py:823-834 | taken exactly when no unexpired lock has the name |
| JobStore.Store.ReleaseOperationLock | src/symphony/store.py:836-838 | the name is free afterwards exactly when nobody else holds it; a foreign owner's lock and all other names stay as they were |
| JobStore.LockRoundTrip | src/symphony/store.py:823-838 | taking a free lock and giving it back leaves the other unexpired locks; until it expires nobody else can take it or give it back |
| JobStore.Store.SetProviderBackoff | src/symphony/store.py:810-821 | until its time no queued job of this provider is selectable, and afterwards the provider is free; backoff and selectability of other providers are unchanged |
| JobStore.Store.RecordEvent | src/symphony/store.py:803-808 | appends the event of a known job, rejects an unknown one |
| Fairness.OldestFirst | src/symphony/store.py:461-470 | without retry requests a claim goes to a repository not claimed later than any waiting one |
| Fairness.NotServedTwice | src/symphony/store.py:453-501 | while a repository waits, no other repository is claimed twice |
| Fairness.BoundedOvertaking | src/symphony/store.py:453-501 | a waiting repository is overtaken by at most as many claims as there are other repositories |
| Fairness.ClaimOrigin | src/symphony/store.py:497-500 | every claimed event comes from a successful claim of that job at that time |
| Attempts.AttemptsBounded | src/symphony/coordinator.py:866-923 | over its whole life a job starts at most the maximum of counted attempts, whatever retries, resumes, requeues and recoveries happen, and its counter is the number of attempts in the log |
| Attempts.CounterKept | src/symphony/store.py:711-734 | the counter reset never fires on a job with attempts |
| Attempts.SysRunInv | src/symphony/coordinator.py:866-923 | the inductive invariant: counter within the limit, equal to the log, and known to the worker that has not begun |
| Witnesses.ReviewingToNeedsGuidance | src/symphony/store.py:386-404 | a run that takes a job from REVIEWING to NEEDS_GUIDANCE, which the table does not allow |
| Witnesses.PrOpenToNeedsGuidance | src/symphony/store.py:386-404 | a run that takes a job from PR_OPEN to NEEDS_GUIDANCE, which the table does not allow |
| Witnesses.DoneToCanceled | src/symphony/store.py:656-666 | a run that takes a job from DONE to CANCELED, which the table does not allow |
| Witnesses.BecomesQueuedWithLeaseIff | src/symphony/store.py:720-735 | a job becomes queued with a lease exactly by a resume or retry of an open pull request that kept its lease |
| Witnesses.ClaimRejectedIff | src/symphony/store.py:482-487 | a claim of a runnable job is rejected exactly when its row carries a lease, which is then under another key |
| Witnesses.RetriedIsFirst | src/symphony/store.py:461-487 | while no other runnable job was retried, a retried job that holds a lease under another key is every legal claim's choice, and the claim is rejected |
| Witnesses.RetryBlocksQueue | src/symphony/store.py:720-735 | the run intake, claim, open with the lease kept, retry, accepted revision, new key, second intake, with nondecreasing readings, after which at every later time another job is runnable but every legal claim is rejected |
| Witnesses.RowKeysMayCoincide | src/symphony/coordinator.py:388-419 | the run intake, pause, retry, accepted revision, claim, new key, second intake and claim, with nondecreasing readings, that leaves two running jobs whose rows carry the same concurrency key |
| Witnesses.LateRenewal | src/symphony/store.py:544-558 | a renewal that read the clock before a claim and commits after it renews a lease that had run out and exceeds the global limit |
| Coordinator.Coordinator.RunClaimed | src/symphony/coordinator.py:744-1165 | for all answers and exceptions the run ends without a lease, outside RUNNING and REVIEWING, with the claimed specification, routing, key and branch, where its last recorded move went, unless an operator or a merge moved it since; unless it opened a pull request it decided a state; after an opening the job ends in PR_OPEN unless it was merged or canceled; the attempt counter went up by the attempts of the trace, at most one and only below the limit, and then the retry request is served; at most corrections + 2 * repairs + 2 turns; the trace obeys the rules and is backed by a history that leads from the tables at the claim to those at the end; it returns only after its last move or from a handler |
| Coordinator.Coordinator.RunBody | src/symphony/coordinator.py:744-1029 | the guarded part: returning means that the last answer led to a recorded move that gave the lease back and the row is settled; counter, turns and attempts are bounded also when it raises |
| Coordinator.Coordinator.RunOn | src/symphony/coordinator.py:826-1029 | the same from the health check on, which comes only when no pull request was found or one is reworked |
| Coordinator.Coordinator.Implement | src/symphony/coordinator.py:907-1029 | the same from the first turn on, which comes only after a good setup in a verified worktree |
| Coordinator.Coordinator.RunGuarded | src/symphony/coordinator.py:744-1165 | body and handlers: the row is settled in every case, and only a move or a handler ends the run |
| Verdicts.OneVerdict | src/symphony/coordinator.py:744-1165 | an answer leads to at most one state, with the lease kept or not |
| Verdicts.VerdictEnds | src/symphony/coordinator.py:744-1165 | after an answer that leads to a state only the move there, or an exception, comes next |
| Verdicts.GoesOn | src/symphony/coordinator.py:748-1029 | after any other answer its own next step, or an exception, comes next: match, look-up, adoption or health check; good setup, turn, result; inspection, commands, round. A run never stops there |
| Verdicts.RecordedHasReason | src/symphony/coordinator.py:744-1165 | every recorded state is the one the last answer before it leads to |
| Verdicts.EndHasReason | src/symphony/coordinator.py:744-1165 | a decided run stands where its last move went; unless that is PR_OPEN, the last answer before it is one that stops a run there: a mismatch, the health, the setup, the row and result after a turn, an exhausted round, nothing ahead, a caught exception |
| Verdicts.WorkIsPublished | src/symphony/coordinator.py:982-1029 | validated and substantive work with changes to commit or commits ahead is published: unless an exception comes in between, a run that gave its lease back wrote the pull request, then its evidence, then recorded PR_OPEN |
| Turns.TurnsLimited | src/symphony/coordinator.py:935-1408 | no run corrects or repairs more often than configured |
| Turns.RepairsHaveFindings | src/symphony/coordinator.py:1329-1368 | every implementer turn after the recorded pull request answers the last review, which counted findings or requested changes, below the repair limit |
| Turns.FindingsAreRepaired | src/symphony/coordinator.py:1312-1368 | after a complete review with findings, while repairs are left, the review is posted and then the implementer is asked for; only an exception comes in between |
| Turns.ReviewGoesOn | src/symphony/coordinator.py:1228-1408 | what follows each answer of a review: a usable reviewer reviews and a complete review is posted; with findings and repairs left a usable implementer repairs, and after a published repair comes the next review; otherwise the review ends at PR_OPEN without the lease |
| Turns.WaitsNamed | src/symphony/coordinator.py:469-476 | while a worker waits for a turn and the row holds its lease, the row names, at the provider that plays the role, the conversation that turn was started in, except that a correction may be under the name the first result gave it; it is the conversation accepted last |
| Turns.NamedRightIff | src/symphony/coordinator.py:926-977 | during a correction the row names the conversation the worker waits for exactly when the result of the first turn named no other one |
| Turns.RequeuesRest | src/symphony/coordinator.py:839-854 | a run queues its job again only after it backed off, in the tables, its implementer while attempts remain, or the provider found limited after a failure without a pull request |
| Turns.CommitsVerified | src/symphony/coordinator.py:515-537 | nothing is committed and no validation command runs in a worktree that was not verified since the last command, setup, checkout or implementer turn |
| Coordinator.Coordinator.Handle | src/symphony/coordinator.py:1030-1165 | every handler records the state its exception leads to, or leaves a row that is already out of the run; the row is settled even when the handler's own transition is refused |
| Coordinator.Coordinator.Catch | src/symphony/coordinator.py:1048-1062 | a handler starts from the row as it is now, and only after a provider failure looks for a limited provider |
| Coordinator.Coordinator.HandleProvider | src/symphony/coordinator.py:1048-1123 | after a provider failure the run ends where the limited provider, the open pull request, the accepted turn and the remaining attempts lead, in this order |
| Coordinator.Coordinator.Settle | src/symphony/coordinator.py:1030-1165 | a handler's move goes where its exception leads, or finds the row already settled |
| Coordinator.Coordinator.Preflight | src/symphony/coordinator.py:748-801 | a run goes on only after the trace records that the claimed job matched the live content, routing, scope and configured provider, and what was found on its branch; otherwise it is settled |
| Coordinator.Coordinator.AdoptPr | src/symphony/coordinator.py:802-824 | adopting an open pull request either ends the run settled within the review's turn bound, or the job goes on running with its counter unchanged |
| Coordinator.Coordinator.ReviewAdopted | src/symphony/coordinator.py:807-824 | an adopted pull request is reviewed within the turn bound and the run ends settled |
| Coordinator.Coordinator.OpenAdopted | src/symphony/coordinator.py:807-823 | an adopted pull request is checked out and recorded open before its review, and the retry request is served |
| Coordinator.Coordinator.CheckProvider | src/symphony/coordinator.py:826-875 | the run goes on only with a usable implementer below the attempt limit; otherwise it ends where the health leads |
| Coordinator.Coordinator.Prepare | src/symphony/coordinator.py:877-897 | a good setup in a verified worktree, or the run is settled as blocked |
| Coordinator.Coordinator.FirstTurn | src/symphony/coordinator.py:907-933 | at most one turn and one attempt, counted in the row; the run is settled or the job still running, and never open |
| Coordinator.Coordinator.AwaitTurn | src/symphony/coordinator.py:925-933 | after the result the run is settled or the job still running, with nothing else done outside |
| Coordinator.Coordinator.Wait | src/symphony/coordinator.py:469-476 | while the worker waits others act, the row names the run all the time, and the result is logged with what it was asked for |
| Coordinator.Coordinator.BeginAttempt | src/symphony/coordinator.py:919-923 | the counter of the running row goes up by exactly one |
| Coordinator.Coordinator.TransitionFromResult | src/symphony/coordinator.py:640-735 | after a result the run ended where row and result lead, or goes on with a completed one and the row unchanged by it |
| Coordinator.Coordinator.ActOn | src/symphony/coordinator.py:644-735 | the run goes on exactly for an unstopped completion, and otherwise moves where row and result lead |
| Answers.StateAfterTurn | src/symphony/coordinator.py:648-735 | each state a result may lead to, exactly: cancel before pause before the result; queued again for an unstopped quota or tool failure while attempts remain, failed when they are exhausted; the work goes on for an unstopped completion |
| Coordinator.Coordinator.RunValidations | src/symphony/coordinator.py:515-537 | runs every command unless an exception comes; true exactly when there is one and all passed |
| Coordinator.Coordinator.Inspect | src/symphony/coordinator.py:936-942 | true exactly when the work is substantive and its round passed |
| Coordinator.Coordinator.Corrections | src/symphony/coordinator.py:935-980 | ends with work that is substantive and validated since the last implementer turn, within the correction limit, or settled |
| Coordinator.Coordinator.Correct | src/symphony/coordinator.py:967-977 | one more correction, in the conversation the run was started in |
| Coordinator.Coordinator.Backoff | src/symphony/store.py:810-821 | the worker backs the provider off in the tables, without touching jobs or events |
| Coordinator.Coordinator.CommitWork | src/symphony/coordinator.py:982-992 | with nothing to commit and nothing ahead the run is settled as failed, otherwise it goes on to publish |
| Coordinator.Coordinator.PushFirst | src/symphony/coordinator.py:982-1003 | asks for validated, substantive work; afterwards the run is settled, or the branch is on GitHub as it is in the worktree, pushed or already there |
| Coordinator.Coordinator.PushWork | src/symphony/coordinator.py:994-1003 | the push has its own renewal and guard, and comes exactly when the remote branch does not match |
| Coordinator.Coordinator.OpenPr | src/symphony/coordinator.py:1005-1023 | after it returns PR_OPEN is recorded with a pull request number and the row still holds its lease |
| Coordinator.Coordinator.PublishEvidence | src/symphony/coordinator.py:1014-1023 | its evidence rewrite obeys the rules of the trace; after it returns PR_OPEN is recorded with a pull request number and the row still holds its lease |
| Coordinator.Coordinator.CreateDraftPr | src/symphony/github.py:380-443 | after a renewal and scope check its writes obey the rules of the trace: guarded, on the claimed branch, created only when a look-up on it found none, and labeled; its number is that of the pull request found |
| Coordinator.Coordinator.CreateNew | src/symphony/github.py:403-443 | a creation is prepared, absent by look-up, and after a counted attempt |
| Coordinator.Coordinator.UpdatePrValidation | src/symphony/github.py:445-462 | after a renewal and scope check its evidence rewrite obeys the rules of the trace: guarded, of the run's own pull request, and exactly the section of the body last read |
| Coordinator.Coordinator.RequireLiveLease | src/symphony/coordinator.py:478-487 | returning appends exactly a renewal, which is a new, successful and own transaction of the history, a reading of the issue, and a passed comparison of its scope with the claimed one; the row holds its lease |
| Coordinator.Coordinator.CheckScope | src/symphony/coordinator.py:481-487 | returning after a renewal appends exactly a reading of the issue and a passed comparison of its scope with the claimed one; a failed comparison raises with that reading as its logged cause |
| Coordinator.Coordinator.Renew | src/symphony/coordinator.py:478-480 | a renewal is the last transaction of the history; a successful one was made by the owner that claimed and leaves the row holding its lease, and a refused one found no such unexpired lease |
| Coordinator.Coordinator.OwnRenewal | src/symphony/store.py:544-558 | the transaction succeeds exactly when the owner holds an unexpired lease, and is recorded as the worker's own |
| History.RenewedHolds | src/symphony/store.py:544-558 | at a successful renewal the job held its lease, unexpired at the reading, and afterwards lease row and job row run for the full time from it |
| Coordinator.Coordinator.GuardMutation | src/symphony/github.py:244-262 | returning appends exactly one passed guard about this copy of the claimed row, which after a renewal and scope check prepares the next mutation |
| Coordinator.Coordinator.ProviderSlot | src/symphony/coordinator.py:494-504 | waiting for a slot changes the row at most by what others may do, and returning means that the slot of this provider was taken |
| Coordinator.Coordinator.KeepLease | src/symphony/coordinator.py:498-500 | a round of waiting goes on only after a successful renewal by the owner that claimed, which is the last transaction of the history; a refused one ends the wait with itself as the logged cause |
| Coordinator.Coordinator.Review | src/symphony/coordinator.py:1228-1408 | at most 2 * repairs + 1 turns; the pull request stays open at every exit unless an operator cancels, and returning means that the last answer asked to leave it open and the lease is released |
| Coordinator.Coordinator.StartReview | src/symphony/coordinator.py:1260-1262 | a review starts with its own renewal and guard, and its row is REVIEWING in the phase of the reviewer, with the lease kept |
| Coordinator.Coordinator.ReviewTurn | src/symphony/coordinator.py:1263-1331 | at most one more turn; returning a count means that the review was complete and posted, and the count is positive exactly when it counted findings or requested changes |
| Coordinator.Coordinator.AwaitReview | src/symphony/coordinator.py:1268-1285 | the reviewer's turn, with its conversation in the row while the worker waits |
| Coordinator.Coordinator.UseReview | src/symphony/coordinator.py:1286-1331 | a complete review is posted and its findings are known; any other one ends the review |
| Answers.EffectiveFindings | src/symphony/coordinator.py:1329-1332 | a review asks for repairs exactly when it counts findings or requests changes, and a count of its own is used |
| Coordinator.Coordinator.RepairTurn | src/symphony/coordinator.py:1342-1408 | asks for a posted review with findings and a repair left; at most one more turn, the pull request stays open, and going on means one repair more, published, so that the next review starts |
| Coordinator.Coordinator.AwaitRepair | src/symphony/coordinator.py:1367-1375 | the implementer's repair, counted as one, with its conversation and phase in the row while the worker waits |
| Coordinator.Coordinator.FinishRepair | src/symphony/coordinator.py:1384-1408 | a repair is published only when validated, without another turn, and then the next review starts; otherwise the review ended settled |
| Coordinator.Coordinator.PushRepair | src/symphony/coordinator.py:1394-1408 | asks for validated work; neither turns nor attempts change, and its push and evidence rewrite obey the rules of the trace |
| Coordinator.Coordinator.PushChanges | src/symphony/coordinator.py:1394-1399 | a repair's push has its own renewal and guard |
| Trace.MutationsGuarded | src/symphony/coordinator.py:478-487 | every push, pull request write, evidence rewrite and posted review has its own renewal, comparison with the claimed scope and guard, in this order, with no other mutation, provider turn or validation round since the renewal; the guard compared the claimed content and routing with an unpaused live issue and saw no pull request but the job's |
| Trace.MutationsLeased | src/symphony/coordinator.py:478-487 | at the renewal of every mutation the tables held the job's lease, of the owner that claimed it and unexpired at the renewal's reading, and afterwards until its full time from that reading |
| Trace.RenewalsDiffer | src/symphony/coordinator.py:478-487 | different renewals of a trace are different transactions, so none serves two mutations |
| Trace.PushesValidated | src/symphony/coordinator.py:515-537 | every push goes to the claimed branch and follows a non-empty round in which every command passed, with no implementer turn in between |
| Trace.FirstPushSubstantive | src/symphony/coordinator.py:574-580 | the first push also follows an inspection since the last implementer turn whose paths go beyond the validation gate, or contain it where the claimed issue asks for it |
| Trace.FirstPushToOwnBranch | src/symphony/coordinator.py:994-1003 | the first push goes to a branch its guard saw absent, or to that of a pull request the run found open and the guarded row names |
| Trace.CreatesOnlyWhenAbsent | src/symphony/github.py:380-417 | a pull request is created only on the claimed branch, after a counted attempt, and after a look-up on that branch found none, with no mutation, turn or round in between |
| Trace.TurnsMatched | src/symphony/coordinator.py:748-788 | no provider works before the claimed content, routing and scope matched the live issue |
| Trace.TurnsObserved | src/symphony/coordinator.py:907-980 | the counted turns are the turns of the trace |
| Trace.PrOpenObserved | src/symphony/coordinator.py:1022-1023 | the flag that PR_OPEN was recorded is the fact that the trace records it |
| Trace.BegunObserved | src/symphony/coordinator.py:919-923 | the counted attempts are the attempts of the trace |
| OnePullRequest.NoSecondPullRequest | src/symphony/coordinator.py:994-1013 | if a run of a job created a pull request that stays open, and look-ups find it, no later run of the job creates another; what it writes is on the same branch |
| OnePullRequest.CreationFixesBranch | src/symphony/store.py:317-350 | after a run that created a pull request, every later state of the job has its branch |
| ClaimedRow.QuietFollows | src/symphony/coordinator.py:230-258 | a renewal, an operator's stop, a noted CI result, the merge of its pull request, or anything that leaves the row alone keeps the row as a worker needs it, with its conversations and its pull request |
| ClaimedRow.QuietOpens | src/symphony/coordinator.py:451-467 | nobody but the worker records a transition of its job to PR_OPEN, except when it is there already |
| Coordinator.Coordinator.RefusedSettles | src/symphony/coordinator.py:1030-1165 | when the table refuses what a handler asks for, the row has no lease and is not active |
| Recovery.QueuedOnlyLicensed | src/symphony/coordinator.py:304-374 | in every run of any number of passes and any other processes, a step of recovery takes a job to QUEUED only if its row was listed with an expired lease and since then the pass canceled exactly the conversation that row names, at its own provider: the reviewer's during a review except while the implementer repairs, otherwise the implementer's; without one at a configured provider the row has no conversation at all |
| Recovery.Licence | src/symphony/coordinator.py:192-203 | a pass handles only jobs of its listing, and what it may reap, has reaped or queues again has this licence |
| Recovery.SelectsNamed | src/symphony/coordinator.py:192-203 | the selection is the run the row names, exactly if its provider is configured and its conversation has a name |
| Recovery.QueuesItsJob | src/symphony/coordinator.py:364-369 | only the reap and the requeue of a pass take a job to QUEUED, and only the job in hand |
| Recovery.RunInv | src/symphony/coordinator.py:304-374 | in every run the tables are consistent, listed jobs keep their rows, and give-ups name PR_OPEN or NEEDS_GUIDANCE |
| Recovery.GiveUpRefusedIff | src/symphony/coordinator.py:318-362 | giving up after a failed cancel is refused exactly for PR_OPEN, and for a review without a pull request; giving up without a provider exactly for either without a pull request |
| Recovery.GiveUpKeepsPr | src/symphony/coordinator.py:318-362 | giving up keeps an interrupted review's pull request open; a job whose provider is not available keeps any, and one whose conversation could not be canceled asks for guidance unless it was under review |
| RecoveryRuns.RefusalEndsPass | src/symphony/coordinator.py:318-345 | a pass that is still going on never had a give-up refused |
| RecoveryRuns.FinishedResolvesAll | src/symphony/coordinator.py:307-374 | a finished pass reaped or gave up every job it listed |
| RecoveryRuns.ReviewReturns | src/symphony/coordinator.py:367-374 | a finished pass queued every interrupted review again that it saw back at its open pull request |
| RecoveryRuns.UntouchedIsSafe | src/symphony/coordinator.py:307-364 | if no transaction since the listing began an attempt of the job or wrote its conversations, routing, state or phase, the row the reap finds names exactly the conversation and provider of the listed one, which was canceled, or the row it leaves names none |
| RecoveryRuns.LateAttemptEscapes | src/symphony/coordinator.py:307-364 | an attempt that begins after the listing with a new conversation, as the last such transaction, leaves a reaped row that names it, uncanceled by this pass |
| RecoveryRuns.StillCurrentIff | src/symphony/coordinator.py:192-203 | what a pass could check before the reap: in the same state, phase and routing, the canceled conversation is the live one exactly when the selected column is unchanged |
| RecoveryRuns.ConversationOutlivesRecovery | src/symphony/coordinator.py:307-364 | the run listing, skip, attempt, reap: a running job without conversation is listed with an expired lease, an attempt begins, and the reap queues it with a conversation nobody canceled |
| RecoveryRuns.ReapLeaves | src/symphony/coordinator.py:364-366 | a reap of a pass finds that job with an expired lease and leaves exactly its recovered row |
| RecoveryPass.Recoverer.RecoverExpiredLeases | src/symphony/coordinator.py:304-374 | a pass and everybody else's steps are a history of the system, ending in the tables of the store; a finished pass resolved every listed job and had no give-up refused |
| RecoveryPass.Recoverer.RecoverOne | src/symphony/coordinator.py:308-373 | handling one job extends the history, and either moves on to the next job or ends the pass |
| RecoveryPass.Recoverer.ReapListed | src/symphony/coordinator.py:364-373 | the reap is the step of a pass that may reap this job |
| RecoveryPass.Recoverer.LeaveToOperator | src/symphony/coordinator.py:318-362 | the transition is the give-up step of the pass; a refusal ends the pass |
| RecoveryPass.Recoverer.CancelRun | src/symphony/coordinator.py:309-319 | the job may be reaped only after the cancellation and its event succeeded; any failure leaves it to be given up |
| RecoveryPass.Recoverer.QueueAgain | src/symphony/coordinator.py:367-369 | the retry is the requeue step of the pass, for the row of the listed job |
| ControlComments.RecordedIsCompleted | src/symphony/coordinator.py:289-300 | in every interleaving a recorded delivery implies a completed control |
| ControlComments.AppliedAtMostOnce | src/symphony/coordinator.py:278-302 | in every interleaving a comment is applied a second time only if before that a holder of this comment outlived its lock, or failed between applying and recording it |
| ControlComments.CarefulInv | src/symphony/store.py:823-838 | until then the lock of the comment excludes, and the applied comment is recorded or about to be |
| ControlComments.LockIsGivenBack | src/symphony/coordinator.py:286-302 | as long as no holder dies or outlives its lock and none fails between applying and recording, the lock is there only while a process holds it |
| ControlComments.CrashAppliesTwice | src/symphony/coordinator.py:289-302 | a run with all holders in time and one failure, between applying and recording, that applies the comment twice |
| ControlComments.CanApplyIff | src/symphony/coordinator.py:282-302 | from every reachable state a comment can be applied (again) exactly when it is unrecorded or a process has passed the second check |
| ControlComments.UnrecordedCanApply | src/symphony/coordinator.py:282-302 | while it is unrecorded an idle process applies it in five steps without failure |
| ControlComments.RecordedStays | src/symphony/coordinator.py:287-300 | recorded, and with no process past the second check, it is never applied again |
| ControlComments.RecordedIsSkipped | src/symphony/coordinator.py:282-288 | recorded, with nobody at work on it, no process takes the comment up and its lock is never taken again |
| ControlComments.LateHolderAppliesTwice | src/symphony/coordinator.py:286-302 | so does a holder that outlives its lock, without any failure |
| Operator.Operator.Enqueue | src/symphony/coordinator.py:71-190 | undisturbed: a job is created exactly when the issue had none, and waits where what was seen places it; an existing one is accepted exactly when the issue is eligible and the job may be refreshed, is not workable or fits, and is not touched unless refreshed; a workable job that is not accepted is canceled for a closed issue and otherwise paused; a returned workable job fits the live issue; an ineligible issue is always refused |
| Operator.Operator.EnqueueExisting | src/symphony/coordinator.py:94-110 | accepted exactly when the row may be refreshed, is not workable or fits; a refresh stores the live issue, any other acceptance changes nothing, and a refusal halts the job |
| Operator.Operator.Refresh | src/symphony/coordinator.py:94-104 | undisturbed the row then carries the live snapshot, routing, scope and branch |
| Operator.Operator.EnqueueNew | src/symphony/coordinator.py:112-190 | a new job is at PR_OPEN exactly when its branch has an open pull request, left to the operator exactly when without one the branch exists or a provider is not usable, and otherwise queued; while workable it carries the issue's snapshot, routing, scope and branch |
| Operator.Operator.Halt | src/symphony/coordinator.py:216-228 | raises the cancel flag for a closed issue, otherwise the pause flag |
| Operator.Operator.Control | src/symphony/coordinator.py:376-422 | undisturbed: the flag of a stop is in the row whatever fails afterwards; after a resume or retry a row that was running, under review or done is there still, and any other is queued, or asks for guidance when the issue read afterwards is not eligible or has no scope; a queued row then fits the live issue exactly when GitHub was reached after the command was recorded, or it fitted before; an answered command was carried out to the end |
| Operator.Operator.Accept | src/symphony/coordinator.py:388-419 | a job that keeps going has the live routing and scope under any interference; undisturbed a queued job also has the live content, and stays queued exactly when the issue is eligible in a configured scope |
| Operator.FittingPassesClaimCheck | src/symphony/coordinator.py:748-763 | a fitting job passes the claim check on the unchanged issue exactly when its review provider's name is not empty |
| Intake.RecheckStableIff | src/symphony/intake.py:56-87 | for every label set and every set of available review providers, routing again with the recorded one only gives the same decision exactly when its name is not empty |
| Intake.DefaultReviewerStable | src/symphony/intake.py:79-85 | the default review provider is chosen again when only it is available |
| Intake.ReviewerIndependence | src/symphony/intake.py:79-85 | the default review provider is available, and is the implementer exactly when nobody else is |
| Intake.EligibleIff | src/symphony/intake.py:56-87 | an issue is eligible exactly when it is open, ready and under no stop label, the labels name one implementation provider and at most one review provider, that only with the request for a review, and somebody can give a requested review |
| Intake.RoutingNames | src/symphony/intake.py:72-87 | the routing is what the labels say: the implementer they name, a review exactly when requested, and the reviewer they name, if they name one |
| GitHub.UnchangedIssueKeepsRouting | src/symphony/github.py:244-262 | for an unchanged issue the guard refuses only a foreign pull request or an existing branch, never the routing |
| GitHub.GuardMeans | src/symphony/github.py:231-262 | a passed guard means unedited content, an open, ready and unpaused issue, the claimed implementer, no foreign pull request, and no branch unless it is allowed |
| Evidence.LastUpdateWinsIff | src/symphony/github.py:455-460 | update(update(b, v1), v2) = update(b, v2) exactly when newline + v1 does not contain the next section's marker |
| Evidence.UpdatesIff | src/symphony/github.py:455-460 | the section is found exactly when some section header stands before some next-section marker |
| Evidence.SectionHoldsEvidence | src/symphony/github.py:455-460 | what is written is read back: the section then holds exactly the evidence, unless that contains the next section's marker |
| Evidence.UpdateKeepsRest | src/symphony/github.py:455-460 | all text before the section and from the next section on is kept, and a later update finds the section again |
| Evidence.UpdatedBounds | src/symphony/github.py:456-457 | where a later update finds the section, and when it finds its end too early |
| Evidence.LastCiWins | src/symphony/coordinator.py:553-556 | noting CI twice keeps the last note and the local part, so the same CI state is written once |
| Evidence.NotedIsRead | src/symphony/coordinator.py:553-556 | the noted CI state is read back from the summary |
| Text.Find | src/symphony/github.py:456-457 | the least position at or after a start where a text occurs, none exactly when it does not |

## Left out

- Job columns that no modelled decision reads: worktree, session ids, status comment id, pull request URL, message and terminal texts, started, heartbeat and finished times. The validations table is only written and reported.
- SHA-256, JSON and NFKD: a content hash is represented by the content itself, so equal hashes mean equal content.
- SQL, the write-ahead log, migration, backup and failing database calls: tables are maps, transactions are atomic. ISO timestamps and clocks are integers.
- Case folding is ASCII only. Pull request numbers are positive, so "has a number" is "is present". Routing labels are the fixed table in `Intake`.
- Threads, semaphores, the heartbeat thread, futures and the scheduler's tick: only which store call may come when matters. `reconcile`'s loops over pull requests and issues, status publication and notes kept as events are not methods of their own; their store calls are actions in every interleaving.
- Agent Server and git calls, prompts, redaction, reports, labels, webhooks and configuration validation: their results are arbitrary.
- `short_slug`, `branch_name` and the backoff arithmetic: easy members. The branch name is an arbitrary function of the issue and backoff times are arbitrary.
- Coordinator.Coordinator.RunClaimed: other processes may act on this job's row by renewing its lease, by an operator's pause or cancel, by a noted CI result, and by the merge of its pull request. A retry, a reap or a second worker on the same row during the run is excluded; `Witnesses.RetryBlocksQueue` shows what a retry can do.
- Coordinator.Coordinator.RunClaimed: its moves write no phase except that of a started review, which recovery reads. The phases a counter reset looks for in the log matter only to a job whose attempts were counted without a conversation, and a run counts none so (`StoreRuns.AttemptsHaveConversations`).
- Coordinator.Coordinator.RunBody: how often an answer is asked for does not matter, except for the results of commands. What a turn, a setup or a command does in the worktree is arbitrary, and so is what GitHub answers.
- Coordinator.Coordinator.ProviderSlot: a slot is logged when it is taken; how many there are and that they are given back is not modelled. A wait ends after any number of refused attempts.
- Turns.FindingsAreRepaired: a turn may also end in an exception, whose handler leaves the pull request open; then no repair follows.
- Verdicts.WorkIsPublished: the same for an exception between the inspected work and its pull request.
- StoreRuns.ProviderCapacityHolds: the clock as in `StoreRuns.CapacityHolds`; a command may make a provider the implementer of a leased job, and `StoreRuns.ProviderLimitIff` shows that this is the only way beyond the limit.
- StoreRuns.PollutedAttemptsForgotten: stated for the logged phase of a transition; `StoreRuns.OtherAttemptsKept` is about all its texts.
- Trace.MutationsLeased: the lease is live at the renewal's reading; like the source, nothing renews it again before the mutation itself.
- Trace.MutationsGuarded: the label added to a freshly created pull request has no renewal and guard of its own in the source, only a live check of controls and content, so it is not counted as a mutation.
- Attempts.AttemptsBounded: a worker stops for good when the lease row of its job is removed, begins at most one attempt per claim and only below the limit, and providers return a conversation. `Coordinator.Coordinator.RunClaimed` proves the second, about the row's counter.
- OnePullRequest.NoSecondPullRequest: premises are that providers return a conversation, that the earlier run left the row as `RunClaimed` promises, that the pull request stays open and that look-ups find it.
- StoreRuns.CapacityHolds: clock readings must not decrease in commit order, which the source does not guarantee, as `Witnesses.LateRenewal` shows. The same premise is in `StoreRuns.ExpiredStaysExpired`.
- Recovery.QueuedOnlyLicensed: the licence is about the row as it was listed; `RecoveryRuns.UntouchedIsSafe` and `RecoveryRuns.LateAttemptEscapes` say what that means at the reap.
- ControlComments.AppliedAtMostOnce: commands are abstract steps here; what a command does to the row is in `Operator` and `JobStore`.
- Operator.Operator.Enqueue: with interference only the consistency of the tables is claimed, since a claim may fall between any two of its store calls.

/** What recovery passes achieve over whole runs, and what their licence is worth at the reap. */
module RecoveryRuns {
  import opened Types
  import opened StoreSpec
  import opened StoreActions
  import opened StoreInvariant
  import opened StoreSteps
  import opened ClaimedRow
  import opened JobStore
  import opened Recovery
  import Witnesses

  // ---- finished passes ------------------------------------------------------------------------------------------

  lemma {:induction false} GoneStaysGone(
    run: seq<Sys>, steps: seq<Step>, providers: set<string>, p: Pid, m: nat, n: nat)
    requires IsHistory(run, steps, providers) && m <= n < |run| && p !in run[m].procs
    requires forall k :: m <= k < n ==> !(steps[k].List? && steps[k].p == p)
    ensures p !in run[n].procs
  {
    hide Inv, Next, Enabled;
    if m < n {
      GoneStaysGone(run, steps, providers, p, m, n - 1);
      assert TakenAt(run, steps, providers, n - 1);
    }
  }

  /** A pass that is still going on never had a give-up refused: a refusal ends the whole pass. */
  lemma RefusalEndsPass(run: seq<Sys>, steps: seq<Step>, providers: set<string>, p: Pid, l: int, k: nat, n: nat)
    requires IsHistory(run, steps, providers) && n < |run| && p in run[n].procs && ListedAt(steps, p, l, n)
    requires l < k < n && steps[k].GiveUp? && steps[k].p == p
    ensures p in run[k].procs && run[k].procs[p].pc.Giving?
    ensures Accepts(run[k].db, run[k].procs[p].pc.job.id, run[k].procs[p].pc.to)
  {
    assert TakenAt(run, steps, providers, k);
    if p !in run[k + 1].procs {
      GoneStaysGone(run, steps, providers, p, k + 1, n);
    }
  }

  /** Step `k` settles the job for this pass: it is reaped, if its lease is still expired, or given up. */
  ghost predicate Resolves(run: seq<Sys>, steps: seq<Step>, p: Pid, job: Job, k: int)
    requires |run| == |steps| + 1
  {
    0 <= k < |steps| && (steps[k].Reap? || steps[k].GiveUp?) && steps[k].p == p && p in run[k].procs &&
    HasJob(run[k].procs[p].pc) && run[k].procs[p].pc.job == job
  }

  ghost predicate ResolvedSince(run: seq<Sys>, steps: seq<Step>, p: Pid, job: Job, l: int, n: int)
    requires |run| == |steps| + 1
  {
    exists k :: l < k < n && Resolves(run, steps, p, job, k)
  }

  /** The pass has begun the job and not resolved it. */
  predicate InHand(pc: Pc, job: Job) {
    (pc.Silenced? || pc.Cleared? || pc.Giving?) && pc.job == job
  }

  predicate ToDo(proc: Proc, job: Job) {
    job in proc.todo || InHand(proc.pc, job)
  }

  lemma StepProgress(s: Sys, st: Step, providers: set<string>, p: Pid, job: Job)
    requires CanStep(s, st, providers) && p in s.procs && p in StepTo(s, st, providers).procs && ToDo(s.procs[p], job)
    ensures ToDo(StepTo(s, st, providers).procs[p], job) ||
      ((st.Reap? || st.GiveUp?) && st.p == p && InHand(s.procs[p].pc, job))
  {
    hide Inv, Next, Enabled, DurableRun, NoConversation, LegalOrder, Lists, Accepts;
    if s.procs[p].todo != [] {
      assert s.procs[p].todo == [s.procs[p].todo[0]] + s.procs[p].todo[1..];
    }
  }

  /** Each listed job is still to do or resolved. */
  lemma {:induction false} Progress(
    run: seq<Sys>, steps: seq<Step>, providers: set<string>, p: Pid, l: int, n: nat, job: Job)
    requires IsHistory(run, steps, providers) && n < |run| && p in run[n].procs && ListedAt(steps, p, l, n)
    requires job in steps[l].rows
    ensures ToDo(run[n].procs[p], job) || ResolvedSince(run, steps, p, job, l, n)
  {
    assert TakenAt(run, steps, providers, n - 1);
    if l < n - 1 {
      assert p in run[n - 1].procs;
      Progress(run, steps, providers, p, l, n - 1, job);
      hide StepTo, CanStep, InHand;
      if ResolvedSince(run, steps, p, job, l, n - 1) {
        var k :| l < k < n - 1 && Resolves(run, steps, p, job, k);
      } else {
        StepProgress(run[n - 1], steps[n - 1], providers, p, job);
        if !ToDo(run[n].procs[p], job) {
          InHandIs(run[n - 1].procs[p].pc, job);
          assert Resolves(run, steps, p, job, n - 1);
        }
      }
    }
  }

  lemma InHandIs(pc: Pc, job: Job)
    requires InHand(pc, job)
    ensures HasJob(pc) && pc.job == job
  {
  }

  /** The pass has nothing left to do. */
  predicate Finished(s: Sys, p: Pid) {
    At(s, p, Between) && s.procs[p].todo == []
  }

  /** A finished pass reaped or gave up every job it listed. */
  lemma FinishedResolvesAll(run: seq<Sys>, steps: seq<Step>, providers: set<string>, p: Pid, l: int, n: nat, job: Job)
    requires IsHistory(run, steps, providers) && n < |run| && Finished(run[n], p) && ListedAt(steps, p, l, n)
    requires job in steps[l].rows
    ensures ResolvedSince(run, steps, p, job, l, n)
  {
    Progress(run, steps, providers, p, l, n, job);
  }

  /** Pass `p` queues the issue of this job again at a step between `k` and `n`. */
  ghost predicate RequeuedSince(run: seq<Sys>, steps: seq<Step>, p: Pid, job: Job, k: nat, n: nat)
    requires |run| == |steps| + 1
  {
    exists q :: k < q < n <= |steps| && steps[q].Requeue? && steps[q].p == p && At(run[q], p, Returning(job))
  }

  lemma {:induction false} ReturningLasts(
    run: seq<Sys>, steps: seq<Step>, providers: set<string>, p: Pid, job: Job, k: nat, n: nat)
    requires IsHistory(run, steps, providers) && k < n < |run| && At(run[k + 1], p, Returning(job))
    requires p in run[n].procs && forall x :: k < x < n ==> !(steps[x].List? && steps[x].p == p)
    ensures At(run[n], p, Returning(job)) || RequeuedSince(run, steps, p, job, k, n)
  {
    if n > k + 1 {
      hide Inv, Next, Enabled, DurableRun, LegalOrder, Lists, Accepts;
      assert TakenAt(run, steps, providers, n - 1);
      assert p in run[n - 1].procs;
      ReturningLasts(run, steps, providers, p, job, k, n - 1);
      if RequeuedSince(run, steps, p, job, k, n - 1) {
        var q :| k < q < n - 1 && steps[q].Requeue? && steps[q].p == p && At(run[q], p, Returning(job));
      } else if steps[n - 1].Requeue? && steps[n - 1].p == p {
        assert RequeuedSince(run, steps, p, job, k, n);
      }
    }
  }

  /** A finished pass queued every interrupted review again that it saw back at its open pull request. */
  lemma ReviewReturns(
    run: seq<Sys>, steps: seq<Step>, providers: set<string>, p: Pid, job: Job, l: int, k: nat, n: nat)
    requires IsHistory(run, steps, providers) && n < |run| && Finished(run[n], p) && ListedAt(steps, p, l, n)
    requires l < k < n && steps[k] == Look(p) && At(run[k], p, Reaped(job)) && job.state == Reviewing
    requires job.id in run[k].db.jobs && run[k].db.jobs[job.id].state == PrOpen
    ensures RequeuedSince(run, steps, p, job, k, n)
  {
    assert TakenAt(run, steps, providers, k);
    ReturningLasts(run, steps, providers, p, job, k, n);
  }

  // ---- the licence at the reap ------------------------------------------------------------------------------------

  /** The columns the selection of the durable conversation looks at. */
  predicate SameSelection(j: Job, j': Job) {
    && j'.id == j.id && j'.state == j.state && j'.phase == j.phase && j'.routing == j.routing
    && j'.conversation == j.conversation && j'.reviewConversation == j.reviewConversation
  }

  /** The transaction begins an attempt of the job, or writes its conversations, routing, state or phase. */
  predicate Touches(a: Action, id: JobId) {
    match a
    case Begin(x, _, _) => x == id
    case Update(x, p, _) =>
      x == id && (p.conversation.Some? || p.reviewConversation.Some? || p.phase.Some? || p.routing.Some?)
    case Refresh(x, _, _, _, _, _) => x == id
    case Transit(x, _, _) => x == id
    case Command(x, _, _) => x == id
    case ClaimNext(_, choice) => choice == Some(id)
    case Reap(_, order, _) => id in order
    case _ => false
  }

  /** What a transaction that does not touch the job keeps of its row. */
  ghost predicate Keeps(db: Db, a: Action, id: JobId) {
    id in db.jobs && id in Next(db, a).jobs && SameSelection(db.jobs[id], Next(db, a).jobs[id])
  }

  lemma RenewedRow(db: Db, a: Action, id: JobId)
    requires Inv(db) && Enabled(db, a) && id in db.jobs && !Touches(a, id) && a.Renew?
    ensures Keeps(db, a, id)
  {
    hide Inv, Enabled;
  }

  lemma ReapedRows(db: Db, a: Action, id: JobId)
    requires Inv(db) && Enabled(db, a) && id in db.jobs && !Touches(a, id) && a.Reap?
    ensures Keeps(db, a, id)
  {
    ReapAllShape(db, a.order, a.now);
  }

  lemma IntakeRow(db: Db, a: Action, id: JobId)
    requires Inv(db) && Enabled(db, a) && id in db.jobs && !Touches(a, id) && (a.Ensure? || a.Refresh?)
    ensures Keeps(db, a, id)
  {
    hide Inv, Enabled;
  }

  lemma StartedRow(db: Db, a: Action, id: JobId)
    requires Inv(db) && Enabled(db, a) && id in db.jobs && !Touches(a, id) && (a.Accept? || a.Begin?)
    ensures Keeps(db, a, id)
  {
    hide Inv, Enabled;
  }

  lemma UpdatedRow(db: Db, a: Action, id: JobId)
    requires Inv(db) && Enabled(db, a) && id in db.jobs && !Touches(a, id) && a.Update?
    ensures Keeps(db, a, id)
  {
    hide Inv, Enabled;
  }

  lemma MovedRow(db: Db, a: Action, id: JobId)
    requires Inv(db) && Enabled(db, a) && id in db.jobs && !Touches(a, id) && a.Transit?
    ensures Keeps(db, a, id)
  {
    hide Inv, Enabled;
  }

  lemma CommandedRow(db: Db, a: Action, id: JobId)
    requires Inv(db) && Enabled(db, a) && id in db.jobs && !Touches(a, id) && a.Command?
    ensures Keeps(db, a, id)
  {
    hide Inv, Enabled;
  }

  lemma ChosenRow(db: Db, a: Action, id: JobId)
    requires Inv(db) && Enabled(db, a) && id in db.jobs && !Touches(a, id) && a.ClaimNext?
    ensures Keeps(db, a, id)
  {
    hide Inv, Enabled;
  }

  lemma OtherTables(db: Db, a: Action, id: JobId)
    requires Inv(db) && Enabled(db, a) && id in db.jobs && !Touches(a, id)
    requires (a.Backoff? || a.Note? || a.Deliver? || a.Lock? || a.Unlock?)
    ensures Keeps(db, a, id)
  {
    hide Inv, Enabled;
  }

  lemma UntouchedRow(db: Db, a: Action, id: JobId)
    requires Inv(db) && Enabled(db, a) && id in db.jobs && !Touches(a, id)
    ensures id in Next(db, a).jobs && SameSelection(db.jobs[id], Next(db, a).jobs[id])
  {
    hide Inv, Next, Enabled, Touches, SameSelection;
    if a.Renew? { RenewedRow(db, a, id); }
    else if a.Reap? { ReapedRows(db, a, id); }
    else if a.ClaimNext? { ChosenRow(db, a, id); }
    else if a.Ensure? || a.Refresh? { IntakeRow(db, a, id); }
    else if a.Accept? || a.Begin? { StartedRow(db, a, id); }
    else if a.Update? { UpdatedRow(db, a, id); }
    else if a.Transit? { MovedRow(db, a, id); }
    else if a.Command? { CommandedRow(db, a, id); }
    else { OtherTables(db, a, id); }
  }

  /** No transaction between the steps `l` and `n` touches the job. */
  ghost predicate Untouched(run: seq<Sys>, steps: seq<Step>, l: int, n: int, id: JobId)
    requires |run| == |steps| + 1 && n <= |steps|
  {
    forall k :: 0 <= k && l <= k < n && ActionOf(run[k], steps[k]).Some? ==>
      !Touches(ActionOf(run[k], steps[k]).value, id)
  }

  lemma {:induction false} UntouchedRows(
    run: seq<Sys>, steps: seq<Step>, providers: set<string>, l: nat, n: nat, id: JobId)
    requires IsHistory(run, steps, providers) && l <= n <= |steps| && Untouched(run, steps, l, n, id)
    requires id in run[l].db.jobs && run[l].db.jobs[id].id == id
    ensures id in run[n].db.jobs && SameSelection(run[l].db.jobs[id], run[n].db.jobs[id])
  {
    if l < n {
      hide Touches, Inv, Next, Enabled;
      UntouchedRows(run, steps, providers, l, n - 1, id);
      RunInv(run, steps, providers, n - 1);
      assert TakenAt(run, steps, providers, n - 1);
      var a := ActionOf(run[n - 1], steps[n - 1]);
      if a.Some? {
        ActionEnabled(run[n - 1], steps[n - 1], providers);
        UntouchedRow(run[n - 1].db, a.value, id);
      }
    }
  }

  /** Step `i` is a reap by pass `p` that recovers the job it handles. */
  ghost predicate ReapsAt(run: seq<Sys>, steps: seq<Step>, p: Pid, job: Job, i: int)
    requires |run| == |steps| + 1
  {
    0 <= i < |steps| && steps[i].Reap? && steps[i].p == p && p in run[i].procs && run[i].procs[p].pc == Cleared(job) &&
      steps[i].order != []
  }

  lemma ReapLeaves(run: seq<Sys>, steps: seq<Step>, providers: set<string>, p: Pid, job: Job, i: nat)
    requires IsHistory(run, steps, providers) && ReapsAt(run, steps, p, job, i)
    ensures job.id in run[i].db.jobs && job.id in run[i + 1].db.jobs && ExpiredLease(run[i].db, job.id, steps[i].now)
    ensures run[i + 1].db.jobs[job.id] == Recovered(run[i].db.jobs[job.id], steps[i].now)
  {
    RunInv(run, steps, providers, i);
    assert TakenAt(run, steps, providers, i);
    ReapedOnly(run[i].db, job.id, steps[i].order, steps[i].now);
  }

  /** A reap of one job finds and leaves that row. */
  lemma ReapedOnly(db: Db, id: JobId, reaped: seq<JobId>, now: int)
    requires Inv(db) && LegalOrder(db, Some({id}), reaped, now) && reaped != []
    ensures id in db.jobs && ExpiredLease(db, id, now)
    ensures id in ReapAll(db, reaped, now).jobs && ReapAll(db, reaped, now).jobs[id] == Recovered(db.jobs[id], now)
  {
    assert reaped[0] in Ids(reaped);
    ReapAllShape(db, reaped, now);
  }

  /** When no transaction touched the job since the listing, the conversation that may be alive for the row the reap
      finds is the one that was canceled, or the row it leaves names none. */
  lemma UntouchedIsSafe(run: seq<Sys>, steps: seq<Step>, providers: set<string>, p: Pid, job: Job, i: nat)
    returns (l: int, c: int)
    requires IsHistory(run, steps, providers) && ReapsAt(run, steps, p, job, i)
    ensures Licensed(run, steps, providers, p, job, l, c, i)
    ensures job.id in run[i].db.jobs && job.id in run[i + 1].db.jobs
    ensures Untouched(run, steps, l, i, job.id) ==>
      var found, left := run[i].db.jobs[job.id], run[i + 1].db.jobs[job.id];
      && (forall provider, conversation ::
            NamesRun(found, provider, conversation) <==> NamesRun(job, provider, conversation))
      && DurableRun(found, providers) == DurableRun(job, providers)
      && left.conversation == job.conversation && left.reviewConversation == job.reviewConversation
      && (DurableRun(job, providers).None? ==> NoConversation(left))
  {
    l, c := Licence(run, steps, providers, i, p);
    ReapLeaves(run, steps, providers, p, job, i);
    assert TakenAt(run, steps, providers, l);
    var k :| 0 <= k < |steps[l].rows| && steps[l].rows[k] == job;
    if Untouched(run, steps, l, i, job.id) {
      UntouchedRows(run, steps, providers, l, i, job.id);
    }
  }

  /** The conversation column the selection reads. */
  function Selected(job: Job): Option<string> {
    if job.state == Reviewing && job.phase != "review-repair" then job.reviewConversation else job.conversation
  }

  /** What a pass could check before the reap: for a row still in the same state, phase and routing, with a configured
      provider, the canceled conversation is the one that may be alive exactly when the selected column is unchanged,
      up to how no conversation is written. */
  lemma StillCurrentIff(job: Job, found: Job, providers: set<string>)
    requires found.state == job.state && found.phase == job.phase && found.routing == job.routing
    requires job.routing.implementer in providers && Or(job.routing.reviewer, "") in providers
    ensures DurableRun(found, providers) == DurableRun(job, providers) <==>
      Selected(found) == Selected(job) || (!Given(Selected(found)) && !Given(Selected(job)))
  {
  }

  /** Conversely, an attempt that begins after the listing with a conversation the listed row does not name, and is
      the last transaction that touches the job, escapes: the reap leaves a row that names it, and this pass has not
      canceled it. */
  lemma LateAttemptEscapes(
    run: seq<Sys>, steps: seq<Step>, providers: set<string>, p: Pid, job: Job, l: int, k: nat, i: nat,
        conversation: string, now: int)
    requires IsHistory(run, steps, providers) && ReapsAt(run, steps, p, job, i) && ListedAt(steps, p, l, i) && l < k < i
    requires steps[k] == Other(Begin(job.id, Some(conversation), now)) && job.id in run[k].db.jobs
    requires run[k].db.jobs[job.id].state == Running
    requires Untouched(run, steps, k + 1, i, job.id) && job.conversation != Some(conversation)
    requires job.reviewConversation != Some(conversation)
    ensures job.id in run[i + 1].db.jobs && run[i + 1].db.jobs[job.id].conversation == Some(conversation)
    ensures forall c :: CanceledAt(run, steps, p, job, c) ==> steps[c].run.conversation != conversation
    ensures var left := run[i + 1].db.jobs[job.id]; !left.cancel && !left.pause ==> left.state == Queued
  {
    ReapLeaves(run, steps, providers, p, job, i);
    RunInv(run, steps, providers, k);
    assert TakenAt(run, steps, providers, k);
    assert run[k].db.jobs[job.id].id == job.id;
    assert run[k + 1].db == BeginAttempt(run[k].db, job.id, Some(conversation), now);
    UntouchedRows(run, steps, providers, k + 1, i, job.id);
    forall c | CanceledAt(run, steps, p, job, c) ensures steps[c].run.conversation != conversation {
      assert TakenAt(run, steps, providers, c);
    }
  }

  /** Such a run exists: a running job without conversation is listed, an attempt begins, and the reap queues the job
      with a conversation nobody canceled. */
  lemma ConversationOutlivesRecovery(providers: set<string>) returns (run: seq<Sys>, steps: seq<Step>, row: Job)
    ensures IsHistory(run, steps, providers) && |run| == 5 && row.state == Running && NoConversation(row)
    ensures steps == [List(0, [row], 10), Skip(0), Other(Begin("j", Some("c"), 10)), Step.Reap(0, ["j"], 10)]
    ensures ReapsAt(run, steps, 0, row, 3) && IsExpiredRow(run[0].db, row, 10)
    ensures var db :=
      run[4].db; "j" in db.jobs && db.jobs["j"].state == Queued && db.jobs["j"].conversation == Some("c")
  {
    var states, actions := Witnesses.ClaimedRun(1);
    RunKeepsInv(states, actions, 2);
    var db := states[2];
    row := db.jobs["j"];
    assert db.leases["k"].jobId == "j" && db.leases["k"].expiresAt <= 10;
    run, steps := [Sys(db, map[])], [];
    run, steps := Append(run, steps, providers, List(0, [row], 10));
    hide IsHistory, Inv;
    run, steps := LateBegin(run, steps, providers, row);
  }

  lemma LateBegin(run: seq<Sys>, steps: seq<Step>, providers: set<string>, row: Job)
    returns (run': seq<Sys>, steps': seq<Step>)
    requires IsHistory(run, steps, providers) && |run| == |steps| + 1 && var s := run[|steps|];
      s.procs == map[0 := Proc(Between, [row])] && NoConversation(row) && row.id == "j" &&
        s.db.jobs == map["j" := row] &&
      s.db.leases == map["k" := Lease("j", "w", 10)] && row.state == Running && !row.cancel && !row.pause
    ensures steps' == steps + [Skip(0), Other(Begin("j", Some("c"), 10)), Step.Reap(0, ["j"], 10)]
    ensures IsHistory(run', steps', providers) && |run'| == |steps'| + 1 && run <= run'
    ensures ReapsAt(run', steps', 0, row, |steps| + 2)
    ensures var db :=
      run'[|steps'|].db; "j" in db.jobs && db.jobs["j"].state == Queued && db.jobs["j"].conversation == Some("c")
  {
    hide IsHistory, Inv;
    run', steps' := Append(run, steps, providers, Skip(0));
    run', steps' := Append(run', steps', providers, Other(Begin("j", Some("c"), 10)));
    run', steps' := LateReap(run', steps', providers, row);
  }

  lemma LateReap(run: seq<Sys>, steps: seq<Step>, providers: set<string>, row: Job)
    returns (run': seq<Sys>, steps': seq<Step>)
    requires IsHistory(run, steps, providers) && |run| == |steps| + 1 && var s := run[|steps|];
      At(s, 0, Cleared(row)) && row.id == "j" && s.db.jobs.Keys == {"j"} &&
        s.db.leases == map["k" := Lease("j", "w", 10)] &&
      var j := s.db.jobs["j"]; j.state == Running && !j.cancel && !j.pause && j.conversation == Some("c")
    ensures steps' == steps + [Step.Reap(0, ["j"], 10)]
    ensures IsHistory(run', steps', providers) && |run'| == |steps'| + 1 && run <= run'
    ensures ReapsAt(run', steps', 0, row, |steps|)
    ensures var db :=
      run'[|steps'|].db; "j" in db.jobs && db.jobs["j"].state == Queued && db.jobs["j"].conversation == Some("c")
  {
    hide IsHistory, Inv;
    var db := run[|steps|].db;
    assert db.leases["k"].jobId == "j" && db.leases["k"].expiresAt <= 10;
    assert Reapable(db, Some({"j"}), 10) == {"j"} == Ids(["j"]);
    assert ReapAll(db, ["j"], 10) == ReapOne(db, "j", 10) by {
      assert ["j"][..0] == [];
    }
    run', steps' := Append(run, steps, providers, Step.Reap(0, ["j"], 10));
  }

  lemma Append(run: seq<Sys>, steps: seq<Step>, providers: set<string>, st: Step)
    returns (run': seq<Sys>, steps': seq<Step>)
    requires IsHistory(run, steps, providers) && |run| == |steps| + 1 && CanStep(run[|steps|], st, providers)
    ensures IsHistory(run', steps', providers) && |run'| == |steps'| + 1 && steps' == steps + [st] && run <= run'
    ensures run'[|steps'|] == StepTo(run[|steps|], st, providers)
  {
    Extend(run, steps, providers, st);
    run', steps' := run + [StepTo(run[|steps|], st, providers)], steps + [st];
  }
}

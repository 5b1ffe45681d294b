/** One recovery pass as imperative code over the store. It keeps the history of its own steps and of everybody
    else's, and every method is proved to extend it to a history of the system in `Recovery`: the tables are always
    the tables the steps lead to. */
module RecoveryPass {
  import opened Types
  import opened StoreSpec
  import opened StoreInvariant
  import opened ClaimedRow
  import opened JobStore
  import opened Recovery
  import opened RecoveryRuns
  import StoreActions

  class Recoverer {
    const store: Store
    const providers: set<string>
    const me: Pid
    const solo: bool
    var run: seq<Sys>
    var steps: seq<Step>

    /** `solo` says that nobody else acts. */
    constructor (store: Store, providers: set<string>, me: Pid, solo: bool)
      requires Inv(store.View())
      ensures this.store == store && this.providers == providers && this.me == me && this.solo == solo
      ensures Valid() && me !in Now().procs && steps == []
    {
      this.store, this.providers, this.me, this.solo := store, providers, me, solo;
      this.run, this.steps := [Sys(store.View(), map[])], [];
    }

    function Now(): Sys
      requires |run| > 0
      reads this
    {
      run[|run| - 1]
    }

    ghost predicate History()
      reads this
    {
      && IsHistory(run, steps, providers) && |run| == |steps| + 1
      && (solo ==> forall i :: 0 <= i < |steps| ==> !steps[i].Other? && steps[i].p == me)
    }

    ghost predicate Valid()
      reads this, store
    {
      History() && Now().db == store.View()
    }

    /** This pass stands there. */
    ghost predicate Mine(pc: Pc, todo: seq<Job>)
      reads this
    {
      |run| > 0 && me in Now().procs && Now().procs[me] == Proc(pc, todo)
    }

    ghost predicate Ended()
      reads this
    {
      |run| > 0 && me !in Now().procs
    }

    /** No listing of this pass among the steps from `n` on. */
    ghost predicate NoListing(n: nat)
      reads this
    {
      forall k :: n <= k < |steps| ==> !(steps[k].List? && steps[k].p == me)
    }

    /** Record a step whose store transaction has just been made. */
    method Take(st: Step)
      requires History() && CanStep(Now(), st, providers) && StepTo(Now(), st, providers).db == store.View()
      requires solo ==> !st.Other? && st.p == me
      modifies this`run, this`steps
      ensures Valid() && run == old(run) + [StepTo(old(Now()), st, providers)] && steps == old(steps) + [st]
    {
      hide CanStep, StepTo, IsHistory;
      Extend(run, steps, providers, st);
      run, steps := run + [StepTo(Now(), st, providers)], steps + [st];
    }

    lemma Consistent()
      requires History()
      ensures SysInv(Now()) && Inv(Now().db)
    {
      RunInv(run, steps, providers, |steps|);
    }

    /** Any number of steps of other processes and other passes. */
    method Others()
      requires Valid()
      modifies store, this`run, this`steps
      ensures Valid() && old(steps) <= steps && NoListing(|old(steps)|)
      ensures me in Now().procs <==> me in old(Now()).procs
      ensures me in Now().procs ==> Now().procs[me] == old(Now()).procs[me]
    {
      hide IsHistory, Inv;
      var n: nat := *;
      while n > 0 && !solo
        invariant Valid() && old(steps) <= steps && NoListing(|old(steps)|)
        invariant me in Now().procs <==> me in old(Now()).procs
        invariant me in Now().procs ==> Now().procs[me] == old(Now()).procs[me]
        decreases n
      {
        var st: Step := *;
        if CanStep(Now(), st, providers) && TakenByOthers(st, me) {
          OtherStep(st);
        }
        n := n - 1;
      }
    }

    method OtherStep(st: Step)
      requires Valid() && !solo && CanStep(Now(), st, providers) && TakenByOthers(st, me)
      modifies store, this`run, this`steps
      ensures Valid() && steps == old(steps) + [st]
      ensures me in Now().procs <==> me in old(Now()).procs
      ensures me in Now().procs ==> Now().procs[me] == old(Now()).procs[me]
    {
      hide IsHistory, Inv, CanStep;
      var a := ActionOf(Now(), st);
      if a.Some? {
        store.Foreign(a.value);
      }
      Take(st);
    }

    // ---- the steps of a pass ----------------------------------------------------------------------------------

    /** Leave the job to the operator; a refusal, or a report that raises, ends the pass. */
    method LeaveToOperator(job: Job, to: JobState, ghost todo: seq<Job>) returns (ok: bool)
      requires Valid() && Mine(Giving(job, to), todo)
      modifies store, this`run, this`steps
      ensures Valid() && old(steps) <= steps && NoListing(|old(steps)|)
      ensures if ok then Mine(Between, todo) else Ended()
    {
      hide IsHistory, Inv, Transition, MoveAllowed;
      Others();
      Consistent();
      var now: int := *;
      var reply := store.Transition(job.id, PlainMove(to, Some(true)), now);
      Take(GiveUp(me, now));
      if reply.Err? {
        return false;
      }
      ok := Report(Between, todo);
    }

    /** Publish the outcome, which may raise and end the pass. */
    method Report(ghost pc: Pc, ghost todo: seq<Job>) returns (ok: bool)
      requires Valid() && Mine(pc, todo)
      modifies this`run, this`steps
      ensures Valid() && old(steps) <= steps && NoListing(|old(steps)|)
      ensures if ok then Mine(pc, todo) else Ended()
    {
      hide IsHistory, Inv;
      ok := *;
      if !ok {
        Take(Stop(me));
      }
    }

    /** Reap exactly this job, if its lease is still there and expired; an interrupted review goes back to the queue
        against its open pull request. */
    method ReapListed(job: Job, ghost todo: seq<Job>) returns (ok: bool)
      requires Valid() && Mine(Cleared(job), todo)
      modifies store, this`run, this`steps
      ensures Valid() && old(steps) <= steps && NoListing(|old(steps)|)
      ensures if ok then Mine(Between, todo) else Ended()
    {
      hide IsHistory, Inv, ReapAll, LegalOrder, DurableRun;
      Others();
      var now: int := *;
      var reaped := store.ReapExpiredLeases(Some({job.id}), now);
      Take(Step.Reap(me, reaped, now));
      if reaped == [] {
        return true;
      }
      ok := Return(job, todo);
    }

    method Return(job: Job, ghost todo: seq<Job>) returns (ok: bool)
      requires Valid() && Mine(Reaped(job), todo)
      modifies store, this`run, this`steps
      ensures Valid() && old(steps) <= steps && NoListing(|old(steps)|)
      ensures if ok then Mine(Between, todo) else Ended()
    {
      hide IsHistory, Inv, DurableRun;
      Others();
      var recovered := store.GetJob(job.id);
      Take(Look(me));
      if recovered.Some? && job.state == Reviewing && recovered.value.state == PrOpen {
        QueueAgain(job, todo);
      }
      ok := Report(Between, todo);
    }

    method QueueAgain(job: Job, ghost todo: seq<Job>)
      requires Valid() && Mine(Returning(job), todo)
      modifies store, this`run, this`steps
      ensures Valid() && old(steps) <= steps && NoListing(|old(steps)|) && Mine(Between, todo)
    {
      hide IsHistory, Inv, StoreSpec.Control, DurableRun;
      Others();
      Consistent();
      assert StillThere(store.View(), job);
      var now: int := *;
      ghost var before := store.View();
      var reply := store.RequestControl(job.repository, job.issue, Types.Command.Retry, now);
      assert IsFor(before.jobs[job.id], job.repository, job.issue);
      ghost var id :|
        id in before.jobs && IsFor(before.jobs[id], job.repository, job.issue) &&
        store.View() == Control(before, id, Types.Command.Retry, now);
      OwnRow(before, job, id);
      Take(Requeue(me, job.id, now));
    }

    /** Cancel the conversation and record it; whatever fails counts as a failed cancel. */
    method CancelRun(job: Job, ghost todo: seq<Job>) returns (canceled: bool)
      requires Valid() && Mine(Between, [job] + todo) && DurableRun(job, providers).Some?
      modifies store, this`run, this`steps
      ensures Valid() && old(steps) <= steps && NoListing(|old(steps)|)
      ensures Mine(if canceled then Cleared(job) else Giving(job, AfterFailedCancel(job)), todo)
    {
      hide IsHistory, Inv, StoreSpec.RecordEvent;
      canceled := *;
      assert ([job] + todo)[1..] == todo;
      Take(Step.Cancel(me, DurableRun(job, providers).value, canceled));
      if canceled {
        Others();
        var now: int := *;
        var reply := store.RecordEvent(job.id, "expired-run-canceled", now);
        Take(Record(me, now));
        canceled := reply.Ok?;
      }
    }

    /** Handle one listed job; not `ok` ends the pass. */
    method RecoverOne(job: Job, ghost todo: seq<Job>) returns (ok: bool)
      requires Valid() && Mine(Between, [job] + todo)
      modifies store, this`run, this`steps
      ensures Valid() && old(steps) <= steps && NoListing(|old(steps)|)
      ensures if ok then Mine(Between, todo) else Ended()
    {
      hide IsHistory, Inv, DurableRun;
      if DurableRun(job, providers).Some? {
        var canceled := CancelRun(job, todo);
        if canceled {
          ok := ReapListed(job, todo);
        } else {
          ok := LeaveToOperator(job, AfterFailedCancel(job), todo);
        }
      } else {
        assert ([job] + todo)[1..] == todo;
        Take(Skip(me));
        if NoConversation(job) {
          ok := ReapListed(job, todo);
        } else {
          ok := LeaveToOperator(job, AfterNoProvider(job), todo);
        }
      }
    }

    /** One recovery pass. Its steps, and everybody else's, are a history of the system. A finished pass began with a
        listing, reaped or gave up every listed job, and had no give-up refused; otherwise the pass has ended. */
    method RecoverExpiredLeases() returns (finished: bool, ghost l: nat)
      requires Valid() && Ended()
      modifies store, this`run, this`steps
      ensures Valid() && old(steps) <= steps && (!finished ==> Ended())
      ensures finished ==> |old(steps)| <= l && ListedAt(steps, me, l, |steps|) && Finished(Now(), me)
      ensures finished ==> forall job :: job in steps[l].rows ==> ResolvedSince(run, steps, me, job, l, |steps|)
      ensures finished ==> forall k :: l < k < |steps| && steps[k].GiveUp? && steps[k].p == me ==> Accepted(k)
    {
      hide IsHistory, Inv;
      Others();
      var now: int := *;
      Consistent();
      KeyedRows(store.View());
      var listed := store.ExpiredLeaseJobs(now);
      ListsThem(store.View(), listed, now);
      l := |steps|;
      Take(List(me, listed, now));
      finished := HandleAll(listed, l);
      if finished {
        Conclude(l);
      }
    }

    /** The give-up at `k` was accepted by the tables. */
    ghost predicate Accepted(k: nat)
      reads this
    {
      k < |run| && me in run[k].procs && run[k].procs[me].pc.Giving? &&
        Accepts(run[k].db, run[k].procs[me].pc.job.id, run[k].procs[me].pc.to)
    }

    method HandleAll(listed: seq<Job>, ghost l: nat) returns (finished: bool)
      requires Valid() && Mine(Between, listed) && |steps| == l + 1 && steps[l].List? && steps[l].p == me
      modifies store, this`run, this`steps
      ensures Valid() && old(steps) <= steps && NoListing(l + 1)
      ensures if finished then Mine(Between, []) else Ended()
    {
      hide IsHistory, Inv;
      for i := 0 to |listed|
        invariant Valid() && old(steps) <= steps && NoListing(l + 1) && Mine(Between, listed[i..])
      {
        assert listed[i..] == [listed[i]] + listed[i + 1..];
        var ok := RecoverOne(listed[i], listed[i + 1..]);
        if !ok {
          return false;
        }
      }
      finished := true;
    }

    lemma Conclude(l: nat)
      requires History() && l < |steps| && steps[l].List? && steps[l].p == me && NoListing(l + 1) && Mine(Between, [])
      ensures ListedAt(steps, me, l, |steps|)
      ensures forall job :: job in steps[l].rows ==> ResolvedSince(run, steps, me, job, l, |steps|)
      ensures forall k :: l < k < |steps| && steps[k].GiveUp? && steps[k].p == me ==> Accepted(k)
    {
      hide IsHistory;
      forall job | job in steps[l].rows ensures ResolvedSince(run, steps, me, job, l, |steps|) {
        FinishedResolvesAll(run, steps, providers, me, l, |steps|, job);
      }
      forall k | l < k < |steps| && steps[k].GiveUp? && steps[k].p == me ensures Accepted(k) {
        RefusalEndsPass(run, steps, providers, me, l, k, |steps|);
      }
    }
  }

  lemma OwnRow(db: Db, job: Job, id: JobId)
    requires Inv(db) && StillThere(db, job) && id in db.jobs && IsFor(db.jobs[id], job.repository, job.issue)
    ensures id == job.id
  {
  }

  lemma KeyedRows(db: Db)
    requires Inv(db)
    ensures forall id :: id in db.jobs ==> db.jobs[id].id == id
  {
  }

  lemma ListsThem(db: Db, rows: seq<Job>, now: int)
    requires Inv(db) && NoDuplicates(rows) && forall j :: j in rows <==> IsExpiredRow(db, j, now)
    ensures Lists(db, rows, now)
  {
    forall id | id in db.jobs && ExpiredLease(db, id, now) ensures db.jobs[id] in rows {
      assert IsExpiredRow(db, db.jobs[id], now);
    }
  }
}

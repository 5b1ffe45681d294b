/** The lifetime bound on implementation attempts: workers and all other processes as one transition system.

    A worker exists from its claim until the lease row of its job is removed. It compares the attempt counter of
    the row it claimed with the limit and begins at most one attempt. Everybody else may take any other store
    transaction at any time: retries, resumes, requeues, lease recovery, row updates. */
module Attempts {
  import opened Types
  import opened StoreSpec
  import opened StoreActions
  import opened StoreInvariant
  import opened StoreSteps

  /** `seen` is the counter in the row the claim returned. */
  datatype Worker = Worker(seen: nat, begun: bool)

  datatype Sys = Sys(db: Db, workers: map<JobId, Worker>)

  datatype Step =
    | Other(action: Action)
    | Claims(args: ClaimArgs, choice: Option<JobId>)
    | Begins(id: JobId, conversation: string, now: int)

  function ActionOf(st: Step): Action {
    match st
    case Other(a) => a
    case Claims(args, choice) => ClaimNext(args, choice)
    case Begins(id, c, now) => Begin(id, Some(c), now)
  }

  predicate CanStep(s: Sys, st: Step, maxAttempts: nat) {
    && Enabled(s.db, ActionOf(st))
    && (st.Other? ==> !st.action.ClaimNext? && !st.action.Begin?)
    && (st.Begins? ==> st.id in s.workers && !s.workers[st.id].begun && s.workers[st.id].seen < maxAttempts)
  }

  function WorkersAfter(s: Sys, st: Step): map<JobId, Worker> {
    if st.Claims? && st.choice.Some? && st.choice.value in s.db.jobs && !Leased(s.db, st.choice.value)
    then s.workers[st.choice.value := Worker(s.db.jobs[st.choice.value].attempt, false)]
    else if st.Begins? && st.id in s.workers then s.workers[st.id := s.workers[st.id].(begun := true)]
    else s.workers
  }

  /** A worker stops for good when the lease row of its job is gone. */
  function StepTo(s: Sys, st: Step): Sys {
    var r := Next(s.db, ActionOf(st));
    var workers := WorkersAfter(s, st);
    Sys(r, map id | id in workers && Leased(r, id) :: workers[id])
  }

  ghost predicate IsSysRun(run: seq<Sys>, steps: seq<Step>, maxAttempts: nat) {
    && |run| == |steps| + 1
    && run[0] == Sys(EMPTY, map[])
    && forall i :: 0 <= i < |steps| ==> SysStepAt(run, steps, i, maxAttempts)
  }

  ghost predicate SysStepAt(run: seq<Sys>, steps: seq<Step>, i: int, maxAttempts: nat)
    requires 0 <= i < |steps| && |run| == |steps| + 1
  {
    CanStep(run[i], steps[i], maxAttempts) && run[i + 1] == StepTo(run[i], steps[i])
  }

  /** The number of attempts the log counts for a job. */
  function AttemptsStarted(events: seq<Event>, id: JobId): nat {
    if events == [] then 0
    else AttemptsStarted(events[..|events| - 1], id) + if AttemptEventOf(events[|events| - 1], id) then 1 else 0
  }

  lemma {:induction false} NoNewAttempts(before: seq<Event>, after: seq<Event>, id: JobId)
    requires before <= after
    requires forall i :: |before| <= i < |after| ==> !AttemptEventOf(after[i], id)
    ensures AttemptsStarted(after, id) == AttemptsStarted(before, id)
    decreases |after|
  {
    if |after| == |before| {
      assert after == before;
    } else {
      NoNewAttempts(before, after[..|after| - 1], id);
    }
  }

  lemma OneNewAttempt(before: seq<Event>, after: seq<Event>, id: JobId)
    requires before <= after && |after| == |before| + 1 && AttemptEventOf(after[|before|], id)
    ensures AttemptsStarted(after, id) == AttemptsStarted(before, id) + 1
  {
    assert after[..|after| - 1] == before;
  }

  predicate RowOk(db: Db, id: JobId, maxAttempts: nat)
    requires id in db.jobs
  {
    var j := db.jobs[id];
    (j.attempt > 0 ==> j.conversation.Some?) && j.attempt <= maxAttempts && j.attempt == AttemptsStarted(db.events, id)
  }

  predicate WorkerOk(s: Sys, id: JobId)
    requires id in s.workers
  {
    id in s.db.jobs && Leased(s.db, id) && (!s.workers[id].begun ==> s.workers[id].seen == s.db.jobs[id].attempt)
  }

  ghost predicate SysInv(s: Sys, maxAttempts: nat) {
    && Inv(s.db)
    && (forall id :: id in s.db.jobs ==> RowOk(s.db, id, maxAttempts))
    && (forall id :: id !in s.db.jobs ==> AttemptsStarted(s.db.events, id) == 0)
    && (forall id :: id in s.workers ==> WorkerOk(s, id))
  }

  /** A step that begins no attempt of `id` leaves its counter alone: the reset needs a job without a
      conversation, and such a job has no attempts. */
  lemma CounterKept(s: Sys, st: Step, maxAttempts: nat, id: JobId)
    requires SysInv(s, maxAttempts) && CanStep(s, st, maxAttempts)
    requires st.Begins? && st.id == id ==> id !in s.db.jobs
    ensures AttemptsStarted(StepTo(s, st).db.events, id) == AttemptsStarted(s.db.events, id)
    ensures id in s.db.jobs ==>
      id in StepTo(s, st).db.jobs && StepTo(s, st).db.jobs[id].attempt == s.db.jobs[id].attempt
  {
    var a := ActionOf(st);
    NextLogged(s.db, a);
    NextRows(s.db, a);
    var r := Next(s.db, a);
    forall i | |s.db.events| <= i < |r.events| ensures !AttemptEventOf(r.events[i], id) {
      assert Appended(a, s.db, r.events[i]);
    }
    NoNewAttempts(s.db.events, r.events, id);
    if id in s.db.jobs {
      assert RowStep(a, s.db.jobs[id], r.jobs[id]);
    }
  }

  lemma BeginCounts(s: Sys, st: Step, maxAttempts: nat)
    requires SysInv(s, maxAttempts) && CanStep(s, st, maxAttempts) && st.Begins?
    ensures var r := StepTo(s, st).db; st.id in r.jobs && RowOk(r, st.id, maxAttempts)
  {
    var r := Next(s.db, ActionOf(st));
    assert WorkerOk(s, st.id);
    if s.db.jobs[st.id].state == Running {
      OneNewAttempt(s.db.events, r.events, st.id);
    }
  }

  lemma WorkerKept(s: Sys, st: Step, maxAttempts: nat, id: JobId)
    requires SysInv(s, maxAttempts) && CanStep(s, st, maxAttempts) && id in StepTo(s, st).workers
    ensures WorkerOk(StepTo(s, st), id)
  {
    var t := StepTo(s, st);
    if st.Claims? && st.choice == Some(id) {
      assert t.db == Claim(s.db, id, st.args);
    } else {
      assert id in s.workers && WorkerOk(s, id);
      NextRows(s.db, ActionOf(st));
      if !(st.Begins? && st.id == id) {
        CounterKept(s, st, maxAttempts, id);
      }
    }
  }

  lemma SysInvKept(s: Sys, st: Step, maxAttempts: nat)
    requires SysInv(s, maxAttempts) && CanStep(s, st, maxAttempts)
    ensures SysInv(StepTo(s, st), maxAttempts)
  {
    var a := ActionOf(st);
    var t := StepTo(s, st);
    NextKeepsInv(s.db, a);
    NextRows(s.db, a);
    forall id | id in t.db.jobs ensures RowOk(t.db, id, maxAttempts) {
      if st.Begins? && st.id == id {
        BeginCounts(s, st, maxAttempts);
      } else {
        CounterKept(s, st, maxAttempts, id);
      }
    }
    forall id | id !in t.db.jobs ensures AttemptsStarted(t.db.events, id) == 0 {
      CounterKept(s, st, maxAttempts, id);
    }
    forall id | id in t.workers ensures WorkerOk(t, id) {
      WorkerKept(s, st, maxAttempts, id);
    }
  }

  lemma {:induction false} SysRunInv(run: seq<Sys>, steps: seq<Step>, maxAttempts: nat, n: nat)
    requires IsSysRun(run, steps, maxAttempts) && n < |run|
    ensures SysInv(run[n], maxAttempts)
  {
    if n > 0 {
      SysRunInv(run, steps, maxAttempts, n - 1);
      assert SysStepAt(run, steps, n - 1, maxAttempts);
      SysInvKept(run[n - 1], steps[n - 1], maxAttempts);
    }
  }

  /** Over its whole life a job starts at most `maxAttempts` counted attempts, and the counter in its row is
      always the number of attempts in the log. */
  lemma AttemptsBounded(run: seq<Sys>, steps: seq<Step>, maxAttempts: nat, n: nat, id: JobId)
    requires IsSysRun(run, steps, maxAttempts) && n < |run|
    ensures AttemptsStarted(run[n].db.events, id) <= maxAttempts
    ensures id in run[n].db.jobs ==> run[n].db.jobs[id].attempt == AttemptsStarted(run[n].db.events, id)
  {
    SysRunInv(run, steps, maxAttempts, n);
  }
}

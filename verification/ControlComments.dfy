/** Control comments applied by concurrent processes: check the delivery, take the operation lock, check again,
    apply the command, record the delivery, release the lock. One comment id is one delivery and one lock name.

    A process that is not listed is idle. Several threads may share one lock owner. */
module ControlComments {
  import opened Types
  import opened StoreSpec

  type Pid = nat
  type Comment = string

  const LOCK_SECONDS := 900

  /** Where a process stands; `expires` is when the lock it took runs out. */
  datatype Pc =
    | Checked(c: Comment)
    | Locked(c: Comment, expires: int)
    | Cleared(c: Comment, expires: int)
    | Applied(c: Comment, expires: int)
    | Completed(c: Comment, expires: int)
    | Unlocking(c: Comment, expires: int)

  /** `applied` lists the comments whose command changed a job row, `completed` those whose control returned. */
  datatype Sys = Sys(
    clock: int, locks: map<string, Lock>, recorded: set<Comment>, applied: seq<Comment>, completed: set<Comment>,
    procs: map<Pid, Pc>)

  datatype Step =
    | Tick(to: int)
    | Check(p: Pid, comment: Comment)
    | Acquire(p: Pid)
    | Recheck(p: Pid)
    | Apply(p: Pid)
    | Complete(p: Pid)
    | Record(p: Pid)
    | Unlock(p: Pid)
    | Raise(p: Pid)
    | Crash(p: Pid)

  predicate Holds(pc: Pc) {
    !pc.Checked?
  }

  predicate CanStep(s: Sys, st: Step) {
    match st
    case Tick(to) => to >= s.clock
    case Check(p, _) => p !in s.procs
    case Acquire(p) => p in s.procs && s.procs[p].Checked?
    case Recheck(p) => p in s.procs && s.procs[p].Locked?
    case Apply(p) => p in s.procs && s.procs[p].Cleared?
    case Complete(p) => p in s.procs && s.procs[p].Applied?
    case Record(p) => p in s.procs && s.procs[p].Completed?
    case Unlock(p) => p in s.procs && s.procs[p].Unlocking?
    case Raise(p) => p in s.procs && Holds(s.procs[p]) && !s.procs[p].Unlocking?
    case Crash(p) => p in s.procs
  }

  function StepTo(s: Sys, st: Step, owner: Pid -> string): Sys
    requires CanStep(s, st)
  {
    match st
    case Tick(to) => s.(clock := to)
    case Check(p, c) => if c in s.recorded then s else s.(procs := s.procs[p := Checked(c)])
    case Acquire(p) =>
      var c := s.procs[p].c;
      var free := c !in LiveLocks(s.locks, s.clock);
      s.(locks := AcquireLock(s.locks, c, owner(p), LOCK_SECONDS, s.clock),
         procs := if free then s.procs[p := Locked(c, s.clock + LOCK_SECONDS)] else s.procs - {p})
    case Recheck(p) =>
      var pc := s.procs[p];
      s.(procs := s.procs[p := if pc.c in s.recorded then Unlocking(pc.c, pc.expires) else Cleared(pc.c, pc.expires)])
    case Apply(p) =>
      s.(applied := s.applied + [s.procs[p].c], procs := s.procs[p := Applied(s.procs[p].c, s.procs[p].expires)])
    case Complete(p) =>
      s.(completed := s.completed + {s.procs[p].c}, procs := s.procs[p := Completed(s.procs[p].c, s.procs[p].expires)])
    case Record(p) =>
      s.(recorded := s.recorded + {s.procs[p].c}, procs := s.procs[p := Unlocking(s.procs[p].c, s.procs[p].expires)])
    case Unlock(p) => s.(locks := ReleaseLock(s.locks, s.procs[p].c, owner(p)), procs := s.procs - {p})
    case Raise(p) => s.(procs := s.procs[p := Unlocking(s.procs[p].c, s.procs[p].expires)])
    case Crash(p) => s.(procs := s.procs - {p})
  }

  const START := Sys(0, map[], {}, [], {}, map[])

  ghost predicate StepAt(run: seq<Sys>, steps: seq<Step>, owner: Pid -> string, i: int)
    requires 0 <= i < |steps| && |run| == |steps| + 1
  {
    CanStep(run[i], steps[i]) && run[i + 1] == StepTo(run[i], steps[i], owner)
  }

  ghost predicate IsRun(run: seq<Sys>, steps: seq<Step>, owner: Pid -> string) {
    |run| == |steps| + 1 && run[0] == START && forall i :: 0 <= i < |steps| ==> StepAt(run, steps, owner, i)
  }

  // ---- a recorded delivery means a completed control --------------------------------------------------------

  predicate RecordsOk(s: Sys) {
    s.recorded <= s.completed && forall p :: p in s.procs && s.procs[p].Completed? ==> s.procs[p].c in s.completed
  }

  lemma {:induction false} RecordedIsCompleted(run: seq<Sys>, steps: seq<Step>, owner: Pid -> string, n: nat)
    requires IsRun(run, steps, owner) && n < |run|
    ensures RecordsOk(run[n])
  {
    if n > 0 {
      RecordedIsCompleted(run, steps, owner, n - 1);
      assert StepAt(run, steps, owner, n - 1);
    }
  }

  // ---- at most once -----------------------------------------------------------------------------------------

  /** No holder of this comment has outlived its lock. */
  predicate InTime(s: Sys, c: Comment) {
    forall p :: p in s.procs && Holds(s.procs[p]) && s.procs[p].c == c ==> s.clock < s.procs[p].expires
  }

  /** The step is not a failure between the application of this comment and its record. */
  predicate Lossless(s: Sys, st: Step, c: Comment) {
    (st.Raise? || st.Crash?) && st.p in s.procs && s.procs[st.p].c == c ==> !InFlight(s.procs[st.p])
  }

  /** Before state `n` nothing went wrong with this comment. */
  ghost predicate Careful(run: seq<Sys>, steps: seq<Step>, c: Comment, n: nat)
    requires n < |run| == |steps| + 1
  {
    forall i :: 0 <= i < n ==> InTime(run[i], c) && Lossless(run[i], steps[i], c)
  }

  predicate OwnsLock(s: Sys, pc: Pc)
    requires Holds(pc)
  {
    pc.c in s.locks && s.locks[pc.c].expiresAt == pc.expires
  }

  /** The one holder of the comment, if any, owns its lock. */
  predicate Exclusive(s: Sys, c: Comment) {
    && (forall p :: p in s.procs && Holds(s.procs[p]) && s.procs[p].c == c ==> OwnsLock(s, s.procs[p]))
    && (forall p, q :: p in s.procs && q in s.procs && p != q && Holds(s.procs[p]) && Holds(s.procs[q]) ==>
          !(s.procs[p].c == c && s.procs[q].c == c))
  }

  predicate InFlight(pc: Pc) {
    pc.Applied? || pc.Completed?
  }

  /** The process has applied the comment and not recorded it. */
  predicate AppliedBy(s: Sys, p: Pid, c: Comment) {
    p in s.procs && InFlight(s.procs[p]) && s.procs[p].c == c
  }

  ghost predicate Pending(s: Sys, c: Comment) {
    exists p :: AppliedBy(s, p, c)
  }

  predicate Once(applied: seq<Comment>, c: Comment) {
    forall i, j :: 0 <= i < j < |applied| ==> !(applied[i] == c && applied[j] == c)
  }

  /** The process has passed the second check and not applied the comment yet. */
  predicate MayApply(s: Sys, p: Pid, c: Comment) {
    p in s.procs && s.procs[p].Cleared? && s.procs[p].c == c
  }

  /** The comment was applied at most once, an applied one is recorded or about to be, and a process that may apply it
      finds it untouched. */
  ghost predicate OnceOk(s: Sys, c: Comment) {
    && Once(s.applied, c)
    && (c in s.applied ==> c in s.recorded || Pending(s, c))
    && (forall p :: MayApply(s, p, c) ==> c !in s.applied)
  }

  lemma ExclusiveKept(s: Sys, st: Step, owner: Pid -> string, c: Comment)
    requires CanStep(s, st) && Exclusive(s, c) && InTime(s, c)
    ensures Exclusive(StepTo(s, st, owner), c)
  {
  }

  lemma PendingKept(s: Sys, st: Step, owner: Pid -> string, c: Comment)
    requires CanStep(s, st) && Lossless(s, st, c) && Pending(s, c)
    ensures c in StepTo(s, st, owner).recorded || Pending(StepTo(s, st, owner), c)
  {
    var p :| AppliedBy(s, p, c);
    var t := StepTo(s, st, owner);
    if c !in t.recorded {
      assert AppliedBy(t, p, c);
    }
  }

  lemma OnceKept(s: Sys, st: Step, owner: Pid -> string, c: Comment)
    requires CanStep(s, st) && Exclusive(s, c) && OnceOk(s, c) && Lossless(s, st, c)
    ensures OnceOk(StepTo(s, st, owner), c)
  {
    var t := StepTo(s, st, owner);
    if st.Apply? && s.procs[st.p].c == c {
      assert MayApply(s, st.p, c);
      assert AppliedBy(t, st.p, c);
    } else if c in s.applied && Pending(s, c) {
      PendingKept(s, st, owner, c);
    }
    forall p | MayApply(t, p, c) ensures c !in t.applied {
      assert MayApply(s, p, c) || (st == Recheck(p) && c !in s.recorded);
    }
  }

  lemma {:induction false} CarefulInv(run: seq<Sys>, steps: seq<Step>, owner: Pid -> string, c: Comment, n: nat)
    requires IsRun(run, steps, owner) && n < |run| && Careful(run, steps, c, n)
    ensures Exclusive(run[n], c) && OnceOk(run[n], c)
  {
    if n > 0 {
      CarefulInv(run, steps, owner, c, n - 1);
      assert StepAt(run, steps, owner, n - 1);
      ExclusiveKept(run[n - 1], steps[n - 1], owner, c);
      OnceKept(run[n - 1], steps[n - 1], owner, c);
    }
  }

  /** By any number of processes in any interleaving, a comment is applied a second time only if before that a holder
      of this comment outlived its lock, or failed between applying and recording it. */
  lemma AppliedAtMostOnce(run: seq<Sys>, steps: seq<Step>, owner: Pid -> string, c: Comment, n: nat)
    requires IsRun(run, steps, owner) && n < |run| && !Once(run[n].applied, c)
    ensures exists i :: 0 <= i < n && (!InTime(run[i], c) || !Lossless(run[i], steps[i], c))
  {
    if Careful(run, steps, c, n) {
      CarefulInv(run, steps, owner, c, n);
    }
  }

  // ---- locks are given back -----------------------------------------------------------------------------------

  predicate HolderOf(s: Sys, p: Pid, owner: Pid -> string, c: Comment) {
    && p in s.procs && Holds(s.procs[p]) && s.procs[p].c == c
    && c in s.locks && s.locks[c] == Lock(owner(p), s.procs[p].expires)
  }

  /** The lock of the comment has a holder. */
  ghost predicate LockUsed(s: Sys, owner: Pid -> string, c: Comment) {
    c in s.locks ==> exists p :: HolderOf(s, p, owner, c)
  }

  lemma LockUsedKept(s: Sys, st: Step, owner: Pid -> string, c: Comment)
    requires CanStep(s, st) && Exclusive(s, c) && LockUsed(s, owner, c)
    requires st.Crash? ==> s.procs[st.p].c != c
    ensures LockUsed(StepTo(s, st, owner), owner, c)
  {
    var t := StepTo(s, st, owner);
    if st.Acquire? && s.procs[st.p].c == c && c !in LiveLocks(s.locks, s.clock) {
      assert HolderOf(t, st.p, owner, c);
    } else if c in t.locks {
      var p :| HolderOf(s, p, owner, c);
      assert HolderOf(t, p, owner, c);
    }
  }

  /** As long as no holder of the comment dies or outlives its lock, and none fails between applying and recording, its
      lock is only there while a process holds it: every other way out gives it back. */
  lemma {:induction false} LockIsGivenBack(run: seq<Sys>, steps: seq<Step>, owner: Pid -> string, c: Comment, n: nat)
    requires IsRun(run, steps, owner) && n < |run| && Careful(run, steps, c, n)
    requires forall i :: 0 <= i < n && steps[i].Crash? ==> steps[i].p in run[i].procs && run[i].procs[steps[i].p].c != c
    ensures LockUsed(run[n], owner, c)
  {
    if n > 0 {
      LockIsGivenBack(run, steps, owner, c, n - 1);
      CarefulInv(run, steps, owner, c, n - 1);
      assert StepAt(run, steps, owner, n - 1);
      hide IsRun, OnceOk;
      LockUsedKept(run[n - 1], steps[n - 1], owner, c);
    }
  }

  // ---- when a comment can be applied (again) ------------------------------------------------------------------

  lemma Extend(run: seq<Sys>, steps: seq<Step>, owner: Pid -> string, st: Step)
    returns (run': seq<Sys>, steps': seq<Step>)
    requires IsRun(run, steps, owner) && |run| == |steps| + 1 && CanStep(run[|steps|], st)
    ensures steps' == steps + [st] && run' == run + [StepTo(run[|steps|], st, owner)] && IsRun(run', steps', owner)
    ensures |run'| == |steps'| + 1
  {
    steps', run' := steps + [st], run + [StepTo(run[|steps|], st, owner)];
    forall i | 0 <= i < |steps'| ensures StepAt(run', steps', owner, i) {
      assert i < |steps| ==> StepAt(run, steps, owner, i);
    }
  }

  predicate AllInTime(run: seq<Sys>, c: Comment) {
    forall i :: 0 <= i < |run| ==> InTime(run[i], c)
  }

  /** An idle process reads the comment, takes its free lock and passes the second check. */
  lemma Enter(run: seq<Sys>, steps: seq<Step>, owner: Pid -> string, p: Pid, c: Comment)
    returns (run': seq<Sys>, steps': seq<Step>)
    requires IsRun(run, steps, owner) && |run| == |steps| + 1 && var s := run[|steps|];
      p !in s.procs && c !in s.recorded && c !in LiveLocks(s.locks, s.clock)
    ensures IsRun(run', steps', owner) && steps' == steps + [Check(p, c), Acquire(p), Recheck(p)]
    ensures |run'| == |steps'| + 1
    ensures var s, t := run[|steps|], run'[|steps'|];
      run <= run' && t == s.(procs := s.procs[p := Cleared(c, s.clock + LOCK_SECONDS)],
              locks := AcquireLock(s.locks, c, owner(p), LOCK_SECONDS, s.clock))
    ensures AllInTime(run, c) ==> AllInTime(run', c)
  {
    run', steps' := Extend(run, steps, owner, Check(p, c));
    run', steps' := Extend(run', steps', owner, Acquire(p));
    run', steps' := Extend(run', steps', owner, Recheck(p));
  }

  lemma FreshPid(procs: map<Pid, Pc>) returns (p: Pid)
    ensures p !in procs
  {
    p := Above(procs.Keys);
  }

  lemma Above(pids: set<Pid>) returns (n: Pid)
    ensures forall p :: p in pids ==> p < n
    decreases pids
  {
    if pids == {} {
      n := 0;
    } else {
      var p :| p in pids;
      var m := Above(pids - {p});
      n := if p < m then m else p + 1;
      assert forall q :: q in pids ==> q == p || q in pids - {p};
    }
  }

  /** From every reachable state in which the comment is not recorded it can be applied, and so applied again, without
      any failure from there on: an idle process waits until its lock is free. */
  lemma UnrecordedCanApply(run: seq<Sys>, steps: seq<Step>, owner: Pid -> string, c: Comment)
    returns (run': seq<Sys>, steps': seq<Step>, p: Pid, t: int)
    requires IsRun(run, steps, owner) && c !in run[|steps|].recorded
    ensures IsRun(run', steps', owner) && steps' == steps + [Tick(t), Check(p, c), Acquire(p), Recheck(p), Apply(p)]
    ensures |run'| == |steps'| + 1 && run <= run' && run'[|steps'|].applied == run[|steps|].applied + [c]
    ensures p !in run[|steps|].procs && p in run'[|steps'|].procs && run'[|steps'|].clock == t
    ensures run'[|steps'|].procs[p] == Applied(c, t + LOCK_SECONDS)
  {
    var s := run[|steps|];
    p := FreshPid(s.procs);
    t := if c in s.locks && s.locks[c].expiresAt > s.clock then s.locks[c].expiresAt else s.clock;
    run', steps' := Extend(run, steps, owner, Tick(t));
    run', steps' := Enter(run', steps', owner, p, c);
    run', steps' := Extend(run', steps', owner, Apply(p));
  }

  lemma RecordedStep(s: Sys, st: Step, owner: Pid -> string, c: Comment)
    requires CanStep(s, st) && c in s.recorded && forall p :: !MayApply(s, p, c)
    ensures var t := StepTo(s, st, owner); c in t.recorded && (forall p :: !MayApply(t, p, c))
    ensures multiset(StepTo(s, st, owner).applied)[c] == multiset(s.applied)[c]
  {
    var t := StepTo(s, st, owner);
    if st.Apply? {
      assert !MayApply(s, st.p, c);
    }
    forall p ensures !MayApply(t, p, c) {
      assert !MayApply(s, p, c);
    }
  }

  /** Once it is recorded, and no process has passed the second check before, it is never applied again. */
  lemma {:induction false} RecordedStays(
    run: seq<Sys>, steps: seq<Step>, owner: Pid -> string, c: Comment, m: nat, n: nat)
    requires IsRun(run, steps, owner) && m <= n < |run| && c in run[m].recorded && forall p :: !MayApply(run[m], p, c)
    ensures c in run[n].recorded && (forall p :: !MayApply(run[n], p, c))
    ensures multiset(run[n].applied)[c] == multiset(run[m].applied)[c]
  {
    if m < n {
      RecordedStays(run, steps, owner, c, m, n - 1);
      assert StepAt(run, steps, owner, n - 1);
      RecordedStep(run[n - 1], steps[n - 1], owner, c);
    }
  }

  /** No process is at work on the comment. */
  predicate Idle(s: Sys, c: Comment) {
    forall p :: p in s.procs ==> s.procs[p].c != c
  }

  lemma IdleStep(s: Sys, st: Step, owner: Pid -> string, c: Comment)
    requires CanStep(s, st) && c in s.recorded && Idle(s, c)
    ensures var t := StepTo(s, st, owner); c in t.recorded && Idle(t, c)
    ensures var t := StepTo(s, st, owner); c in t.locks ==> c in s.locks && t.locks[c] == s.locks[c]
  {
  }

  /** Once it is recorded and nobody is at work on it, nobody begins: no process takes it up and its lock is never taken
      again. */
  lemma {:induction false} RecordedIsSkipped(
    run: seq<Sys>, steps: seq<Step>, owner: Pid -> string, c: Comment, m: nat, n: nat)
    requires IsRun(run, steps, owner) && m <= n < |run| && c in run[m].recorded && Idle(run[m], c)
    ensures c in run[n].recorded && Idle(run[n], c)
    ensures c in run[n].locks ==> c in run[m].locks && run[n].locks[c] == run[m].locks[c]
  {
    if m < n {
      RecordedIsSkipped(run, steps, owner, c, m, n - 1);
      assert StepAt(run, steps, owner, n - 1);
      IdleStep(run[n - 1], steps[n - 1], owner, c);
    }
  }

  /** The comment can still be applied later exactly when it is unrecorded or a process has passed the second check. */
  lemma CanApplyIff(run: seq<Sys>, steps: seq<Step>, owner: Pid -> string, c: Comment)
    requires IsRun(run, steps, owner)
    ensures (exists run', steps' :: AppliesLater(run, steps, owner, c, run', steps')) <==>
      c !in run[|steps|].recorded || exists p :: MayApply(run[|steps|], p, c)
  {
    var s := run[|steps|];
    if c !in s.recorded {
      var run', steps', p, t := UnrecordedCanApply(run, steps, owner, c);
      assert AppliesLater(run, steps, owner, c, run', steps');
    } else if p :| MayApply(s, p, c) {
      var run', steps' := Extend(run, steps, owner, Apply(p));
      assert AppliesLater(run, steps, owner, c, run', steps');
    } else {
      forall run', steps' | AppliesLater(run, steps, owner, c, run', steps') ensures false {
        assert run'[|steps|] == s;
        RecordedStays(run', steps', owner, c, |steps|, |steps'|);
      }
    }
  }

  /** The run goes on and applies the comment once more. */
  ghost predicate AppliesLater(
    run: seq<Sys>, steps: seq<Step>, owner: Pid -> string, c: Comment, run': seq<Sys>, steps': seq<Step>)
    requires |run| == |steps| + 1
  {
    && IsRun(run', steps', owner) && run <= run' && steps <= steps'
    && multiset(run'[|steps'|].applied)[c] > multiset(run[|steps|].applied)[c]
  }

  // ---- both premises are needed -----------------------------------------------------------------------------

  /** Process 0 applies the comment and dies before recording it. */
  lemma CrashRun(owner: Pid -> string) returns (run: seq<Sys>, steps: seq<Step>)
    ensures IsRun(run, steps, owner) && AllInTime(run, "1") && |run| == 6 && AppliedBy(run[4], 0, "1")
    ensures steps == [Check(0, "1"), Acquire(0), Recheck(0), Apply(0), Crash(0)]
    ensures run[5] == START.(applied := ["1"], locks := map["1" := Lock(owner(0), LOCK_SECONDS)])
  {
    run, steps := Enter([START], [], owner, 0, "1");
    hide IsRun;
    run, steps := Extend(run, steps, owner, Apply(0));
    run, steps := Extend(run, steps, owner, Crash(0));
  }

  /** A process that dies after applying and before recording leaves the comment to be applied again, although every
      holder is in time. */
  lemma CrashAppliesTwice(owner: Pid -> string) returns (run: seq<Sys>, steps: seq<Step>)
    ensures IsRun(run, steps, owner) && |run| == |steps| + 1 && run[|steps|].applied == ["1", "1"]
    ensures AllInTime(run, "1")
    ensures |steps| > 4 && steps[4] == Crash(0) && AppliedBy(run[4], 0, "1")
    ensures forall i :: 0 <= i < |steps| && i != 4 ==> !steps[i].Raise? && !steps[i].Crash?
  {
    run, steps := CrashRun(owner);
    hide IsRun;
    run, steps := Extend(run, steps, owner, Tick(LOCK_SECONDS));
    run, steps := Enter(run, steps, owner, 1, "1");
    run, steps := Extend(run, steps, owner, Apply(1));
  }

  /** So does a process that sleeps past its lock between the second check and applying, without any failure. */
  lemma LateHolderAppliesTwice(owner: Pid -> string) returns (run: seq<Sys>, steps: seq<Step>)
    ensures IsRun(run, steps, owner) && run[|steps|].applied == ["1", "1"]
    ensures forall st :: st in steps ==> !st.Raise? && !st.Crash?
  {
    run, steps := Enter([START], [], owner, 0, "1");
    run, steps := Extend(run, steps, owner, Tick(LOCK_SECONDS));
    run, steps := Enter(run, steps, owner, 1, "1");
    run, steps := Extend(run, steps, owner, Apply(1));
    run, steps := Extend(run, steps, owner, Apply(0));
  }
}

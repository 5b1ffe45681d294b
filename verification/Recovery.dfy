/** Recovery of expired leases: list the expired jobs, cancel the durable conversation of each, then reap it.

    Any number of recovery passes and all other processes are one transition system over the tables. A pass is a
    process of its own; every step is one store transaction or one call of a provider. Only recovery reaps. */
module Recovery {
  import opened Types
  import opened StoreSpec
  import opened StoreActions
  import opened StoreInvariant
  import opened StoreSteps
  import opened ClaimedRow
  import opened JobStore

  datatype Run = Run(provider: string, conversation: string)

  predicate Given(conversation: Option<string>) {
    conversation.Some? && conversation.value != ""
  }

  /** The conversation that may still be alive for a row: the reviewer's during a review, except while the
      implementer repairs, otherwise the implementer's. */
  function DurableRun(job: Job, providers: set<string>): Option<Run> {
    var reviewing := job.state == Reviewing && job.phase != "review-repair";
    var provider := if reviewing then Or(job.routing.reviewer, "") else job.routing.implementer;
    var conversation := if reviewing then job.reviewConversation else job.conversation;
    if provider in providers && Given(conversation) then Some(Run(provider, conversation.value)) else None
  }

  predicate NoConversation(job: Job) {
    !Given(job.conversation) && !Given(job.reviewConversation)
  }

  /** The selection is the run the row names, if its provider is configured and its conversation has a name. */
  lemma SelectsNamed(job: Job, providers: set<string>, run: Run)
    ensures DurableRun(job, providers) == Some(run) <==>
      run.provider in providers && run.conversation != "" && NamesRun(job, run.provider, run.conversation)
  {
  }

  /** Where a job goes when its conversation could not be canceled. */
  function AfterFailedCancel(job: Job): JobState {
    if job.state == Reviewing && job.prNumber.Some? then PrOpen else NeedsGuidance
  }

  /** Where a job goes when the provider of its conversation is not available. */
  function AfterNoProvider(job: Job): JobState {
    if job.prNumber.Some? then PrOpen else NeedsGuidance
  }

  /** Giving up a job whose conversation could not be canceled is refused by the tables exactly for an open pull
      request that still holds its lease and a review without one. */
  lemma GiveUpRefusedIff(db: Db, id: JobId)
    requires Inv(db) && Leased(db, id) && id in db.jobs
    ensures var j := db.jobs[id];
      MoveAllowed(j.state, AfterFailedCancel(j)) <==> j.state != PrOpen && (j.state == Reviewing ==> j.prNumber.Some?)
    ensures var j := db.jobs[id];
      MoveAllowed(j.state, AfterNoProvider(j)) <==> (j.state in {PrOpen, Reviewing} ==> j.prNumber.Some?)
  {
  }

  /** Giving up keeps an interrupted review's pull request open. A job whose provider is not available keeps any pull
      request; one whose conversation could not be canceled asks for guidance instead, unless it was under review. */
  lemma GiveUpKeepsPr(j: Job)
    ensures j.prNumber.Some? ==>
      AfterNoProvider(j) == PrOpen && (AfterFailedCancel(j) == PrOpen <==> j.state == Reviewing)
    ensures j.prNumber.None? ==> AfterNoProvider(j) == AfterFailedCancel(j) == NeedsGuidance
  {
  }

  // ---- the system ---------------------------------------------------------------------------------------------

  type Pid = nat

  /** Where a pass stands with its current job: between jobs, its conversation canceled but not yet recorded, free to
      be reaped, to be given up, reaped, or to be queued again after an interrupted review. */
  datatype Pc =
    | Between
    | Silenced(job: Job)
    | Cleared(job: Job)
    | Giving(job: Job, to: JobState)
    | Reaped(job: Job)
    | Returning(job: Job)

  /** `todo` are the listed jobs it has not begun. */
  datatype Proc = Proc(pc: Pc, todo: seq<Job>)

  datatype Sys = Sys(db: Db, procs: map<Pid, Proc>)

  datatype Step =
    | Other(action: Action)
    | List(p: Pid, rows: seq<Job>, now: int)
    | Cancel(p: Pid, run: Run, ok: bool)
    | Skip(p: Pid)
    | Record(p: Pid, now: int)
    | Reap(p: Pid, order: seq<JobId>, now: int)
    | Look(p: Pid)
    | Requeue(p: Pid, id: JobId, now: int)
    | GiveUp(p: Pid, now: int)
    | Stop(p: Pid)

  predicate At(s: Sys, p: Pid, pc: Pc) {
    p in s.procs && s.procs[p].pc == pc
  }

  /** `rows` are exactly the rows with an expired lease, each once. */
  predicate Lists(db: Db, rows: seq<Job>, now: int) {
    && NoDuplicates(rows)
    && (forall i :: 0 <= i < |rows| ==> IsExpiredRow(db, rows[i], now))
    && (forall id :: id in db.jobs && ExpiredLease(db, id, now) ==> db.jobs[id] in rows)
  }

  predicate CanStep(s: Sys, st: Step, providers: set<string>) {
    match st
    case Other(a) => Enabled(s.db, a) && !a.Reap?
    case List(p, rows, now) => p !in s.procs && Lists(s.db, rows, now)
    case Cancel(p, run, _) =>
      At(s, p, Between) && s.procs[p].todo != [] && DurableRun(s.procs[p].todo[0], providers) == Some(run)
    case Skip(p) => At(s, p, Between) && s.procs[p].todo != [] && DurableRun(s.procs[p].todo[0], providers).None?
    case Record(p, _) => p in s.procs && s.procs[p].pc.Silenced?
    case Reap(p, order, now) =>
      p in s.procs && s.procs[p].pc.Cleared? && LegalOrder(s.db, Some({s.procs[p].pc.job.id}), order, now)
    case Look(p) => p in s.procs && s.procs[p].pc.Reaped?
    case Requeue(p, id, _) =>
      p in s.procs && s.procs[p].pc.Returning? && id in s.db.jobs &&
        IsFor(s.db.jobs[id], s.procs[p].pc.job.repository, s.procs[p].pc.job.issue)
    case GiveUp(p, _) => p in s.procs && s.procs[p].pc.Giving?
    case Stop(p) => p in s.procs
  }

  /** The store transaction of a step, if it is one. */
  function ActionOf(s: Sys, st: Step): Option<Action> {
    match st
    case Other(a) => Some(a)
    case Record(p, now) =>
      if p in s.procs && s.procs[p].pc.Silenced? then Some(Note(s.procs[p].pc.job.id, "expired-run-canceled", now))
      else None
    case Reap(p, order, now) =>
      if p in s.procs && s.procs[p].pc.Cleared? then Some(Action.Reap(Some({s.procs[p].pc.job.id}), order, now))
      else None
    case Requeue(_, id, now) => Some(Command(id, Types.Retry, now))
    case GiveUp(p, now) =>
      if p in s.procs &&
      s.procs[p].pc.Giving? then Some(Transit(s.procs[p].pc.job.id, PlainMove(s.procs[p].pc.to, Some(true)), now))
      else None
    case _ => None
  }

  /** The tables accept a give-up. */
  predicate Accepts(db: Db, id: JobId, to: JobState) {
    id in db.jobs && MoveAllowed(db.jobs[id].state, to)
  }

  /** The pass after its step; `None` when it has ended. A refused give-up ends it. */
  function ProcAfter(s: Sys, st: Step, providers: set<string>): Option<Proc>
    requires CanStep(s, st, providers) && !st.Other?
  {
    match st
    case List(p, rows, _) => Some(Proc(Between, rows))
    case Cancel(p, _, ok) =>
      var job := s.procs[p].todo[0];
      Some(Proc(if ok then Silenced(job) else Giving(job, AfterFailedCancel(job)), s.procs[p].todo[1..]))
    case Skip(p) =>
      var job := s.procs[p].todo[0];
      Some(Proc(if NoConversation(job) then Cleared(job) else Giving(job, AfterNoProvider(job)), s.procs[p].todo[1..]))
    case Record(p, _) =>
      var job := s.procs[p].pc.job;
      Some(s.procs[p].(pc := if job.id in s.db.jobs then Cleared(job) else Giving(job, AfterFailedCancel(job))))
    case Reap(p, order, _) => Some(s.procs[p].(pc := if order == [] then Between else Reaped(s.procs[p].pc.job)))
    case Look(p) =>
      var job := s.procs[p].pc.job;
      var back := job.id in s.db.jobs && job.state == Reviewing && s.db.jobs[job.id].state == PrOpen;
      Some(s.procs[p].(pc := if back then Returning(job) else Between))
    case Requeue(p, _, _) => Some(s.procs[p].(pc := Between))
    case GiveUp(p, _) =>
      if Accepts(s.db, s.procs[p].pc.job.id, s.procs[p].pc.to) then Some(s.procs[p].(pc := Between)) else None
    case Stop(p) => None
  }

  function StepTo(s: Sys, st: Step, providers: set<string>): Sys
    requires CanStep(s, st, providers)
  {
    var db := if ActionOf(s, st).Some? then Next(s.db, ActionOf(s, st).value) else s.db;
    if st.Other? then Sys(db, s.procs)
    else match ProcAfter(s, st, providers)
      case Some(proc) => Sys(db, s.procs[st.p := proc])
      case None => Sys(db, s.procs - {st.p})
  }

  ghost predicate TakenAt(run: seq<Sys>, steps: seq<Step>, providers: set<string>, i: int)
    requires 0 <= i < |steps| && |run| == |steps| + 1
  {
    CanStep(run[i], steps[i], providers) && run[i + 1] == StepTo(run[i], steps[i], providers)
  }

  /** A run from any consistent tables, before any pass has begun. */
  ghost predicate IsHistory(run: seq<Sys>, steps: seq<Step>, providers: set<string>) {
    && |run| == |steps| + 1 && Inv(run[0].db) && run[0].procs == map[]
    && forall i :: 0 <= i < |steps| ==> TakenAt(run, steps, providers, i)
  }

  predicate TakenByOthers(st: Step, me: Pid) {
    match st
    case Other(_) => true
    case _ => st.p != me
  }

  lemma Extend(run: seq<Sys>, steps: seq<Step>, providers: set<string>, st: Step)
    requires IsHistory(run, steps, providers) && CanStep(run[|steps|], st, providers)
    ensures IsHistory(run + [StepTo(run[|steps|], st, providers)], steps + [st], providers)
  {
    hide CanStep, StepTo, Inv;
    var longer, more := run + [StepTo(run[|steps|], st, providers)], steps + [st];
    forall i | 0 <= i < |more| ensures TakenAt(longer, more, providers, i) {
      assert i < |steps| ==> TakenAt(run, steps, providers, i);
    }
  }

  // ---- the passes stay with the rows they listed ----------------------------------------------------------------

  predicate HasJob(pc: Pc) {
    !pc.Between?
  }

  /** The row of a listed job is still there and still the row of its issue. */
  predicate StillThere(db: Db, j: Job) {
    j.id in db.jobs && IsFor(db.jobs[j.id], j.repository, j.issue)
  }

  predicate ProcOk(db: Db, proc: Proc) {
    && (HasJob(proc.pc) ==> StillThere(db, proc.pc.job)) && (forall j :: j in proc.todo ==> StillThere(db, j))
    && (proc.pc.Giving? ==> proc.pc.to in {PrOpen, NeedsGuidance})
  }

  predicate SysInv(s: Sys) {
    Inv(s.db) && forall p :: p in s.procs ==> ProcOk(s.db, s.procs[p])
  }

  lemma ActionEnabled(s: Sys, st: Step, providers: set<string>)
    requires SysInv(s) && CanStep(s, st, providers) && ActionOf(s, st).Some?
    ensures Enabled(s.db, ActionOf(s, st).value)
  {
  }

  lemma KnownKept(db: Db, a: Action, j: Job)
    requires Inv(db) && Enabled(db, a) && StillThere(db, j)
    ensures StillThere(Next(db, a), j)
  {
    NextRows(db, a);
  }

  lemma StepDb(s: Sys, st: Step, providers: set<string>)
    requires SysInv(s) && CanStep(s, st, providers)
    ensures Inv(StepTo(s, st, providers).db)
    ensures forall j :: StillThere(s.db, j) ==> StillThere(StepTo(s, st, providers).db, j)
  {
    hide Inv, Next, Enabled;
    if ActionOf(s, st).Some? {
      ActionEnabled(s, st, providers);
      NextKeepsInv(s.db, ActionOf(s, st).value);
      forall j | StillThere(s.db, j) ensures StillThere(StepTo(s, st, providers).db, j) {
        KnownKept(s.db, ActionOf(s, st).value, j);
      }
    }
  }

  lemma StepProc(s: Sys, st: Step, providers: set<string>, p: Pid)
    requires SysInv(s) && CanStep(s, st, providers) && p in StepTo(s, st, providers).procs
    ensures ProcOk(s.db, StepTo(s, st, providers).procs[p])
  {
    hide Inv, Next, Enabled, Accepts, DurableRun;
  }

  lemma StepKeepsInv(s: Sys, st: Step, providers: set<string>)
    requires SysInv(s) && CanStep(s, st, providers)
    ensures SysInv(StepTo(s, st, providers))
  {
    hide Inv, StepTo, CanStep, StillThere;
    var t := StepTo(s, st, providers);
    StepDb(s, st, providers);
    forall p | p in t.procs ensures ProcOk(t.db, t.procs[p]) {
      StepProc(s, st, providers, p);
    }
  }

  lemma {:induction false} RunInv(run: seq<Sys>, steps: seq<Step>, providers: set<string>, n: nat)
    requires IsHistory(run, steps, providers) && n < |run|
    ensures SysInv(run[n])
  {
    if n > 0 {
      hide SysInv, StepTo, CanStep;
      RunInv(run, steps, providers, n - 1);
      assert TakenAt(run, steps, providers, n - 1);
      StepKeepsInv(run[n - 1], steps[n - 1], providers);
    }
  }

  // ---- the licence ------------------------------------------------------------------------------------------------

  /** Step `l` is the listing of pass `p` that is still going on at `n`. */
  ghost predicate ListedAt(steps: seq<Step>, p: Pid, l: int, n: int) {
    && 0 <= l < n <= |steps| && steps[l].List? && steps[l].p == p
    && forall k :: l < k < n ==> !(steps[k].List? && steps[k].p == p)
  }

  /** Step `c` is the successful cancellation of this job by pass `p`. */
  ghost predicate CanceledAt(run: seq<Sys>, steps: seq<Step>, p: Pid, job: Job, c: int)
    requires |run| == |steps| + 1
  {
    0 <= c < |steps| && steps[c].Cancel? && steps[c].p == p && steps[c].ok && At(run[c], p, Between) &&
      run[c].procs[p].todo != [] && run[c].procs[p].todo[0] == job
  }

  /** Between the listing and `n` exactly the selected conversation of the listed row was canceled, or the listed
      row names none. */
  ghost predicate Licensed(
    run: seq<Sys>, steps: seq<Step>, providers: set<string>, p: Pid, job: Job, l: int, c: int, n: int)
    requires |run| == |steps| + 1
  {
    && ListedAt(steps, p, l, n) && job in steps[l].rows
    && (if DurableRun(job, providers).Some?
        then l < c < n && CanceledAt(run, steps, p, job, c) && Some(steps[c].run) == DurableRun(job, providers)
        else NoConversation(job))
  }

  predicate Approved(pc: Pc) {
    pc.Silenced? || pc.Cleared? || pc.Reaped? || pc.Returning?
  }

  /** A pass only handles jobs of its listing, and an approved one has its licence. */
  lemma {:induction false} Licence(run: seq<Sys>, steps: seq<Step>, providers: set<string>, n: nat, p: Pid)
    returns (l: int, c: int)
    requires IsHistory(run, steps, providers) && n < |run| && p in run[n].procs
    ensures ListedAt(steps, p, l, n) && forall j :: j in run[n].procs[p].todo ==> j in steps[l].rows
    ensures HasJob(run[n].procs[p].pc) ==> run[n].procs[p].pc.job in steps[l].rows
    ensures Approved(run[n].procs[p].pc) ==> Licensed(run, steps, providers, p, run[n].procs[p].pc.job, l, c, n)
  {
    hide Inv, Next, Enabled, DurableRun, NoConversation, LegalOrder, Lists;
    assert TakenAt(run, steps, providers, n - 1);
    var st := steps[n - 1];
    if st.List? && st.p == p {
      l, c := n - 1, n - 1;
    } else {
      l, c := Licence(run, steps, providers, n - 1, p);
      if st.Cancel? && st.p == p && st.ok {
        c := n - 1;
        assert CanceledAt(run, steps, p, run[n - 1].procs[p].todo[0], c);
      }
    }
  }

  predicate IsQueued(db: Db, id: JobId) {
    id in db.jobs && db.jobs[id].state == Queued
  }

  lemma StateWriter(s: Sys, st: Step, providers: set<string>, id: JobId)
    requires SysInv(s) && CanStep(s, st, providers) && id in s.db.jobs
    requires !IsQueued(s.db, id) && IsQueued(StepTo(s, st, providers).db, id)
    ensures ActionOf(s, st).Some? && WritesState(ActionOf(s, st).value, id)
  {
    assert s.db.jobs[id].id == id;
    assert ActionOf(s, st).Some?;
    ActionEnabled(s, st, providers);
    NextRows(s.db, ActionOf(s, st).value);
    hide Inv, Next, Enabled, CanStep;
    assert RowStep(ActionOf(s, st).value, s.db.jobs[id], Next(s.db, ActionOf(s, st).value).jobs[id]);
  }

  /** Only reaps and requeues of a pass queue a job, and only the job it handles. */
  lemma QueuesItsJob(s: Sys, st: Step, providers: set<string>, id: JobId)
    requires SysInv(s) && CanStep(s, st, providers) && !st.Other?
    requires id in s.db.jobs && !IsQueued(s.db, id) && IsQueued(StepTo(s, st, providers).db, id)
    ensures (st.Reap? || st.Requeue?) && Approved(s.procs[st.p].pc) && s.procs[st.p].pc.job.id == id
  {
    StateWriter(s, st, providers, id);
    if st.Requeue? {
      assert StillThere(s.db, s.procs[st.p].pc.job);
    } else if st.Reap? {
      assert id in Ids(st.order);
    }
  }

  /** In every run, a step of recovery returns a job to the queue only if its row was listed with an expired lease and
      since then the pass canceled exactly the run that row names, at its own provider: the reviewer's during a review,
      except while the implementer repairs, otherwise the implementer's. Without a run at a configured provider the row
      names no conversation at all. */
  lemma QueuedOnlyLicensed(run: seq<Sys>, steps: seq<Step>, providers: set<string>, i: nat, id: JobId)
    returns (job: Job, l: int, c: int)
    requires IsHistory(run, steps, providers) && i < |steps| && !steps[i].Other?
    requires id in run[i].db.jobs && !IsQueued(run[i].db, id) && IsQueued(run[i + 1].db, id)
    ensures job.id == id && Licensed(run, steps, providers, steps[i].p, job, l, c, i)
    ensures IsExpiredRow(run[l].db, job, steps[l].now)
    ensures forall provider, conversation ::
      NamesRun(job, provider, conversation) && provider in providers && conversation != "" ==>
      l < c < i && steps[c] == Step.Cancel(steps[i].p, Run(provider, conversation), true)
    ensures (forall provider, conversation ::
        NamesRun(job, provider, conversation) ==> provider !in providers || conversation == "") ==>
      job.conversation in {None, Some("")} && job.reviewConversation in {None, Some("")}
  {
    RunInv(run, steps, providers, i);
    assert TakenAt(run, steps, providers, i);
    QueuesItsJob(run[i], steps[i], providers, id);
    hide SysInv, StepTo;
    job := run[i].procs[steps[i].p].pc.job;
    l, c := Licence(run, steps, providers, i, steps[i].p);
    assert TakenAt(run, steps, providers, l);
    var k :| 0 <= k < |steps[l].rows| && steps[l].rows[k] == job;
    hide IsHistory, CanStep;
    LicenceMeans(run, steps, providers, steps[i].p, job, l, c, i);
  }

  lemma LicenceMeans(
    run: seq<Sys>, steps: seq<Step>, providers: set<string>, p: Pid, job: Job, l: int, c: int, n: int)
    requires |run| == |steps| + 1 && Licensed(run, steps, providers, p, job, l, c, n)
    ensures forall provider, conversation ::
      NamesRun(job, provider, conversation) && provider in providers && conversation != "" ==>
      l < c < n && steps[c] == Step.Cancel(p, Run(provider, conversation), true)
    ensures (forall provider, conversation ::
        NamesRun(job, provider, conversation) ==> provider !in providers || conversation == "") ==>
      job.conversation in {None, Some("")} && job.reviewConversation in {None, Some("")}
  {
    forall provider, conversation |
      NamesRun(job, provider, conversation) && provider in providers && conversation != ""
      ensures DurableRun(job, providers) == Some(Run(provider, conversation))
    {
      SelectsNamed(job, providers, Run(provider, conversation));
    }
    if DurableRun(job, providers).Some? {
      SelectsNamed(job, providers, DurableRun(job, providers).value);
    }
  }
}

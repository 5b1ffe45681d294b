/** The run of a claimed job: a worker that moves one row through the store, asks the outside world, and mutates
    the repository. Every answer and every exception of the outside is arbitrary. Between any two store calls other
    processes may act (`Others`): on other rows as they like, on this row by renewing its lease, by an operator's
    pause or cancel, by a noted CI result and by the merge of its pull request. */
module Coordinator {
  import opened Types
  import opened Text
  import opened Intake
  import opened GitHub
  import opened Answers
  import opened StoreSpec
  import opened StoreActions
  import opened StoreInvariant
  import opened ClaimedRow
  import opened Trace
  import opened History
  import opened JobStore
  import Evidence

  /** The run's turns, attempts and counts are those of before. */
  predicate Steady(m: Monitor, m': Monitor) {
    && m'.work == m.work && m'.turns == m.turns && m'.begun == m.begun && m'.prOpen == m.prOpen
    && m'.tally == m.tally && m'.matched == m.matched
  }

  /** Only the readings and the preparation of the next mutation differ. */
  predicate Calm(m: Monitor, m': Monitor) {
    Steady(m, m') && m'.tree == m.tree && m'.course == m.course
  }

  /** The same, and the run has gone on to `a`. */
  predicate Goes(m: Monitor, m': Monitor, a: Act) {
    Steady(m, m') && m'.tree == m.tree && m'.course == Course(a, None, m.course.decided)
  }

  /** The last thing logged is an exception of this class. */
  predicate Thrown(m: Monitor, exn: Exn) {
    m.course.last.Raised? && ExnOf(m.course.last.cause) == exn
  }

  /** Nothing happened but preparations, and an exception if one was raised. */
  predicate Unmoved<T>(m: Monitor, m': Monitor, r: Step<T>) {
    if r.Raise? then Goes(m, m', m'.course.last) && Thrown(m', r.exn) else Calm(m, m')
  }

  /** The last move gave the lease back. */
  predicate Over(m: Monitor) {
    m.course.last.Recorded? && !m.course.last.kept
  }

  function StandingOf(m: Monitor): Standing {
    Standing(m.begun, m.prOpen, m.tally.served, m.course.decided)
  }

  class Coordinator {
    const store: Store
    const limits: Limits
    const leaseSeconds: int
    const scopeKey: (string, set<string>) -> Option<string>
    ghost var log: seq<Act>
    ghost var mon: Monitor
    ghost var claim: Job
    ghost var start: Db
    ghost var history: Past

    constructor (store: Store, limits: Limits, leaseSeconds: int, scopeKey: (string, set<string>) -> Option<string>)
      ensures this.store == store && this.limits == limits && log == [] && mon == FRESH
      ensures this.leaseSeconds == leaseSeconds && this.scopeKey == scopeKey
    {
      this.store, this.limits, this.leaseSeconds, this.scopeKey := store, limits, leaseSeconds, scopeKey;
      log, mon := [], FRESH;
    }

    ghost function Claim(): Rules
      reads this`claim
    {
      Rules(claim, scopeKey, leaseSeconds, limits)
    }

    /** The history of the run leads from its start to these tables, and backs the log. */
    ghost predicate LeadsTo(db: Db)
      reads this
    {
      && IsPast(history, claim.id) && history.views[0] == start && history.views[|history.txs|] == db
      && Backed(log, Claim(), history) && mon.clock <= |history.txs|
    }

    /** `mon` summarises the log, which obeys the rules about the claim, and the tables are consistent and where the
        history leads. */
    ghost predicate Valid()
      reads this, store
    {
      mon == Observe(log) && Good(log, Claim()) && Inv(store.View()) && LeadsTo(store.View())
    }

    /** The event log grew since the claim, and its transitions of the job to PR_OPEN are recorded in the trace. */
    ghost predicate EventsOk()
      reads this, store
    {
      start.events <= store.events && (OpenedSince(store.events, |start.events|, claim.id) ==> mon.prOpen)
    }

    /** What holds at every point of a run, and in every handler. */
    ghost predicate Ready(id: JobId)
      reads this, store
    {
      Valid() && EventsOk() && id == claim.id && id in store.jobs && RowOk(store.jobs[id], claim, StandingOf(mon))
    }

    /** The job is running and the worker's copy knows its attempt counter. */
    ghost predicate Claimed(job: Job)
      reads this, store
    {
      && Ready(job.id) && AboutClaim(job, claim) && store.jobs[job.id].state == Running
      && store.jobs[job.id].attempt == job.attempt == claim.attempt + mon.begun && !mon.prOpen
    }

    /** The claim was also compared with the live issue. */
    ghost predicate Working(job: Job)
      reads this, store
    {
      Claimed(job) && mon.matched
    }

    ghost predicate Finished(id: JobId)
      reads this, store
    {
      Ready(id) && Settled(store.jobs[id])
    }

    /** A stage of the run is over: it went on, or finished the run, or raised. */
    ghost predicate Ends<T>(r: Step<T>, on: bool)
      reads this, store
    {
      (r.Raise? ==> Thrown(mon, r.exn)) && (r.Return? && !on ==> Finished(claim.id) && Over(mon))
    }

    // ---- the log --------------------------------------------------------------------------------------------

    ghost method Emit(a: Act)
      requires Valid() && Proper(mon, a, Claim()) && BackedBy(a, Claim(), history)
      modifies this`log, this`mon
      ensures Valid() && mon == Advance(old(mon), a) && log == old(log) + [a]
    {
      hide Proper, IsPast, BackedBy, Inv, Good, Observe, Backed, Advance;
      GoodExtends(log, a, Claim());
      BackedExtends(log, a, Claim(), history);
      ClockInside(a);
      log, mon := log + [a], Advance(mon, a);
    }

    lemma ClockInside(a: Act)
      requires Valid() && BackedBy(a, Claim(), history)
      ensures Advance(mon, a).clock <= |history.txs|
    {
      hide Observe, Good, Inv, Backed, BackedBy, AdvancePrep, AdvanceWork, AdvanceTally, AdvanceRead, AdvanceCourse;
      if Since(a).Some? {
        BackedInside(a, Claim(), history);
      }
    }

    /** Raise an exception and log its cause. */
    method Throw<T>(exn: Exn, ghost cause: Cause) returns (r: Step<T>)
      requires Valid() && ExnOf(cause) == exn && Holds(mon, cause, Claim()) && Timely(mon, Raised(cause))
      requires BackedBy(Raised(cause), Claim(), history)
      modifies this`log, this`mon
      ensures Valid() && r == Raise(exn) && Unmoved(old(mon), mon, r) && old(log) < log
      ensures mon.own == old(mon).own && mon.prep == old(mon).prep
    {
      hide Inv, Valid, BackedBy, Holds, Since;
      Emit(Raised(cause));
      r := Raise(exn);
    }

    /** Note the store transaction that has just been made. */
    ghost method Note(own: bool, a: Action)
      requires exists before :: LeadsTo(before) && Makes(before, own, a)
      modifies this`history
      ensures LeadsTo(store.View()) && history == Grow(old(history), own, a)
    {
      var before :| LeadsTo(before) && Makes(before, own, a);
      GrowIsPast(history, claim.id, own, a);
      BackedGrows(log, Claim(), history, own, a);
      hide IsPast, Backed, Next, Enabled, Quiet;
      history := Grow(history, own, a);
    }

    /** The tables of the store are those before the transaction with it applied. */
    ghost predicate Makes(before: Db, own: bool, a: Action)
      reads this, store
    {
      Enabled(before, a) && store.View() == Next(before, a) && (!own ==> Quiet(before, a, claim.id))
    }

    lemma PastShape(db: Db)
      requires LeadsTo(db)
      ensures |history.views| == |history.txs| + 1 && history.views[|history.txs|] == db
      ensures mon.clock <= |history.txs|
    {
    }

    /** The row as the tables have it now. */
    lemma SeesRow(id: JobId)
      requires Valid() && id == claim.id && id in store.jobs
      ensures SeenAt(history, id, store.jobs[id], |history.txs|) && mon.clock <= |history.txs|
    {
    }

    // ---- the outside ----------------------------------------------------------------------------------------

    /** Any answer, or any exception. */
    method Ask<T(0)>() returns (r: Step<T>)
      requires Valid()
      modifies this`log, this`mon
      ensures Valid() && Unmoved(old(mon), mon, r) && mon.own == old(mon).own && mon.prep == old(mon).prep
      ensures r.Return? ==> mon == old(mon) && log == old(log)
      ensures r.Raise? ==> old(log) < log
    {
      hide Inv, Valid;
      r := *;
      if r.Raise? {
        r := Throw(r.exn, Outside(r.exn));
      }
    }

    method Clock() returns (now: int) {
      now := *;
    }

    method AskIssue() returns (r: Step<Snapshot>)
      requires Valid()
      modifies this`log, this`mon
      ensures Valid() && Unmoved(old(mon), mon, r) && mon.own == old(mon).own && mon.prep == old(mon).prep
      ensures r.Return? ==> mon.read == old(mon).read.(issue := Some(r.value)) && mon.clock == old(mon).clock
      ensures r.Return? ==> log == old(log) + [ReadIssue(r.value)]
      ensures old(log) <= log
    {
      hide Inv, Valid;
      r := Ask();
      if r.Return? {
        Emit(ReadIssue(r.value));
      }
    }

    method AskPr() returns (r: Step<Option<int>>)
      requires Valid()
      modifies this`log, this`mon
      ensures Valid() && Unmoved(old(mon), mon, r) && mon.own == old(mon).own && mon.prep == old(mon).prep
      ensures r.Return? ==> mon.read == old(mon).read.(pr := Some(r.value)) && mon.clock == old(mon).clock
      ensures old(log) <= log
    {
      hide Inv, Valid;
      r := Ask();
      if r.Return? {
        Emit(ReadPr(r.value));
      }
    }

    method AskBranch() returns (r: Step<bool>)
      requires Valid()
      modifies this`log, this`mon
      ensures Valid() && Unmoved(old(mon), mon, r) && mon.own == old(mon).own && mon.prep == old(mon).prep
      ensures r.Return? ==> mon.read == old(mon).read.(branch := Some(r.value)) && mon.clock == old(mon).clock
      ensures old(log) <= log
    {
      hide Inv, Valid;
      r := Ask();
      if r.Return? {
        Emit(ReadBranch(r.value));
      }
    }

    method AskBody() returns (r: Step<string>)
      requires Valid()
      modifies this`log, this`mon
      ensures Valid() && Unmoved(old(mon), mon, r) && mon.own == old(mon).own && mon.prep == old(mon).prep
      ensures r.Return? ==> mon.read.body == Some(r.value)
    {
      hide Inv, Valid;
      r := Ask();
      if r.Return? {
        Emit(ReadBody(r.value));
      }
    }

    /** Whether the implementer is configured. */
    method AskProvider() returns (known: bool)
      requires Valid()
      modifies this`log, this`mon
      ensures Valid() && Calm(old(mon), mon) && mon.own == old(mon).own
      ensures mon.read == old(mon).read.(provider := Some(known))
    {
      hide Inv, Valid;
      known := *;
      Emit(ReadProvider(known));
    }

    predicate MayLookUp(m: Monitor) {
      var l := m.course.last;
      l.Matched? || (!m.prOpen && (l.Pushed? || l == Remote(true) || l.PrWritten?))
    }

    /** The open pull request of the claimed branch. */
    method LookUp(branch: string) returns (r: Step<Option<int>>)
      requires Valid() && branch == claim.branch && MayLookUp(mon)
      modifies this`log, this`mon
      ensures r.Raise? ==> Unmoved(old(mon), mon, r)
      ensures r.Return? ==>
        mon.prep == old(mon).prep.(lookup := Some(r.value)) && (r.value.Some? ==> mon.own == r.value)
      ensures r.Return? && old(mon).course.last.Matched? ==> Goes(old(mon), mon, LookedUp(branch, r.value))
      ensures r.Return? && !old(mon).course.last.Matched? ==> Calm(old(mon), mon)
      ensures Valid()
    {
      hide Inv, Valid;
      var found :- AskPr();
      Emit(LookedUp(branch, found));
      return Return(found);
    }

    method AskHealth(role: Role) returns (r: Step<Health>)
      requires Valid() && MayAssess(mon, role, Claim())
      requires role.Reviewer? ==> claim.routing.reviewer !in {None, Some("")}
      requires role.Implementer? && mon.prOpen ==> mon.prep.passed
      modifies this`log, this`mon
      ensures Valid() && mon.own == old(mon).own && mon.prep == old(mon).prep
      ensures if r.Raise? then Unmoved(old(mon), mon, r) else Goes(old(mon), mon, Assessed(role, r.value))
    {
      hide Inv, Valid;
      r := Ask();
      if r.Return? {
        Emit(Assessed(role, r.value));
      }
    }

    /** The reviewer's health; `None` when none is named or configured. */
    method AskReviewer(job: Job) returns (r: Step<Option<Health>>)
      requires Valid() && AboutClaim(job, claim) && MayAssess(mon, Reviewer, Claim())
      modifies this`log, this`mon
      ensures Valid() && mon.own == old(mon).own
      ensures r.Raise? ==> Unmoved(old(mon), mon, r)
      ensures r.Return? ==>
        Goes(old(mon), mon, if r.value.Some? then Assessed(Reviewer, r.value.value) else Unavailable)
      ensures r.Return? && r.value.Some? ==> job.routing.reviewer.Some?
    {
      hide Inv, Valid;
      var configured: bool := *;
      if job.routing.reviewer in {None, Some("")} || !configured {
        Emit(Unavailable);
        return Return(None);
      }
      var health :- AskHealth(Reviewer);
      return Return(Some(health));
    }

    /** Check out the job's branch. */
    method CheckOut() returns (r: Step<()>)
      requires Valid()
      modifies this`log, this`mon
      ensures Valid() && mon.own == old(mon).own && mon.prep == old(mon).prep
      ensures if r.Raise? then Unmoved(old(mon), mon, r)
        else Calm(old(mon).(tree := mon.tree), mon) && mon.tree.checkedOut
    {
      hide Inv, Valid;
      r := Ask();
      if r.Return? {
        Emit(CheckedOut);
      }
    }

    /** Check the integrity of the worktree. */
    method Verify() returns (r: Step<()>)
      requires Valid()
      modifies this`log, this`mon
      ensures Valid() && mon.own == old(mon).own && mon.prep == old(mon).prep
      ensures if r.Raise? then Unmoved(old(mon), mon, r)
        else Calm(old(mon).(tree := old(mon).tree.(intact := true)), mon)
    {
      hide Inv, Valid;
      r := Ask();
      if r.Return? {
        Emit(Verified);
      }
    }

    /** The provider is usable, and attempts remain. */
    ghost predicate MaySetUp(m: Monitor)
      reads this`claim
    {
      FirstHealth(m) && Usable(m.course.last.health) && Attempt(m, Claim()) < limits.attempts
    }

    /** Run the repository's setup script; good when there is none. */
    method AskSetup() returns (r: Step<bool>)
      requires Valid() && MaySetUp(mon) && mon.tree.checkedOut && mon.tree.intact
      modifies this`log, this`mon
      ensures Valid() && mon.own == old(mon).own
      ensures if r.Raise? then Unmoved(old(mon), mon, r)
        else Goes(old(mon).(tree := mon.tree), mon, SetUp(r.value))
    {
      hide Inv, Valid;
      var setup :- Ask<Option<bool>>();
      Emit(SetUp(setup != Some(false)));
      return Return(setup != Some(false));
    }

    /** The provider accepts a turn in this conversation. */
    method AskStart(role: Role) returns (r: Step<string>)
      requires Valid() && mon.course.last.Turn? && mon.course.last.role == role
      requires role.Reviewer? || mon.prOpen || mon.tally.corrections == 0
      modifies this`log, this`mon
      ensures Valid() && mon.own == old(mon).own
      ensures r.Raise? ==> Unmoved(old(mon), mon, r)
      ensures r.Return? ==> Goes(old(mon).(tally := mon.tally), mon, Started(role, r.value))
      ensures r.Return? ==>
        mon.tally == if role.Reviewer? || mon.prOpen then old(mon).tally
          else old(mon).tally.(accepted := true, run := r.value)
    {
      hide Inv, Valid;
      r := Ask();
      if r.Return? {
        Emit(Started(role, r.value));
      }
    }

    /** The implementer goes on in the conversation of the first turn. */
    method AskResume(run: string) returns (r: Step<()>)
      requires Valid() && mon.course.last.Turn? && mon.course.last.role.Implementer? && !mon.prOpen
      requires mon.tally.corrections > 0 && mon.tally.run == run
      modifies this`log, this`mon
      ensures Valid() && mon.own == old(mon).own
      ensures r.Raise? ==> Unmoved(old(mon), mon, r)
      ensures r.Return? ==>
        Goes(old(mon).(tally := old(mon).tally.(accepted := true)), mon, Started(Implementer, run))
    {
      hide Inv, Valid;
      r := Ask();
      if r.Return? {
        Emit(Started(Implementer, run));
      }
    }

    /** The changed paths of the worktree. */
    method AskPaths(job: Job) returns (r: Step<seq<string>>)
      requires Valid() && AboutClaim(job, claim) && Result(mon, WorkCompleted)
      modifies this`log, this`mon
      ensures Valid() && mon.own == old(mon).own
      ensures r.Raise? ==> Unmoved(old(mon), mon, r)
      ensures r.Return? ==>
        var a := Observed(r.value, HasSubstantive(job, r.value));
        Goes(old(mon).(work := old(mon).work.(substantive := a.substantive)), mon, a)
    {
      hide Inv, Valid;
      r := Ask();
      if r.Return? {
        SameSpecification(job, r.value);
        hide HasSubstantive;
        Emit(Observed(r.value, HasSubstantive(job, r.value)));
      }
    }

    lemma SameSpecification(job: Job, paths: seq<string>)
      requires AboutClaim(job, claim)
      ensures HasSubstantive(job, paths) == HasSubstantive(claim, paths)
    {
    }

    /** The number of validation commands. */
    method AskCommands() returns (r: Step<nat>)
      requires Valid() && MayValidate(mon)
      modifies this`log, this`mon
      ensures Valid() && mon.own == old(mon).own
      ensures r.Raise? ==> Unmoved(old(mon), mon, r)
      ensures r.Return? ==> Goes(old(mon).(tally := old(mon).tally.(ran := [])), mon, Listed(r.value))
    {
      hide Inv, Valid;
      r := Ask();
      if r.Return? {
        Emit(Listed(r.value));
      }
    }

    /** Run one command. */
    method AskRun() returns (r: Step<bool>)
      requires Valid() && mon.course.last.Listed? && |mon.tally.ran| < mon.course.last.commands && mon.tree.intact
      modifies this`log, this`mon
      ensures Valid() && mon.own == old(mon).own
      ensures r.Raise? ==> Unmoved(old(mon), mon, r)
      ensures r.Return? ==>
        var tally := old(mon).tally.(ran := old(mon).tally.ran + [r.value]);
        Calm(old(mon).(tally := tally, tree := mon.tree), mon)
    {
      hide Inv, Valid;
      r := Ask();
      if r.Return? {
        Emit(Ran(r.value));
      }
    }

    /** Whether the provider can resume a conversation. */
    method AskResumable() returns (resumable: bool)
      requires Valid() && mon.course.last.Round? && !mon.prOpen && !GoodWork(mon)
      modifies this`log, this`mon
      ensures Valid() && mon.own == old(mon).own && Goes(old(mon), mon, Corrigible(resumable))
    {
      hide Inv, Valid;
      resumable := *;
      Emit(Corrigible(resumable));
    }

    /** Whether the worktree has uncommitted changes. */
    method AskChanges() returns (r: Step<bool>)
      requires Valid() && mon.course.last.Round? && GoodWork(mon)
      modifies this`log, this`mon
      ensures Valid() && mon.own == old(mon).own
      ensures if r.Raise? then Unmoved(old(mon), mon, r) else Goes(old(mon), mon, Changes(r.value))
    {
      hide Inv, Valid;
      r := Ask();
      if r.Return? {
        Emit(Changes(r.value));
      }
    }

    /** The number of commits ahead of the default branch. */
    method AskAhead() returns (r: Step<nat>)
      requires Valid() && mon.course.last == Changes(false) && !mon.prOpen
      modifies this`log, this`mon
      ensures Valid() && mon.own == old(mon).own
      ensures if r.Raise? then Unmoved(old(mon), mon, r) else Goes(old(mon), mon, Ahead(r.value))
    {
      hide Inv, Valid;
      r := Ask();
      if r.Return? {
        Emit(Ahead(r.value));
      }
    }

    /** Whether the remote branch exists and has the local commits. */
    method AskRemote() returns (r: Step<bool>)
      requires Valid() && MayPublish(mon)
      modifies this`log, this`mon
      ensures Valid() && mon.own == old(mon).own
      ensures if r.Raise? then Unmoved(old(mon), mon, r) else Goes(old(mon), mon, Remote(r.value))
    {
      hide Inv, Valid, MayPublish;
      var exists_ :- Ask<bool>();
      var matches := false;
      if exists_ {
        matches :- Ask<bool>();
      }
      LogRemote(matches);
      return Return(matches);
    }

    /** There is something to publish. */
    predicate MayPublish(m: Monitor) {
      !m.prOpen && (m.course.last.Committed? || (m.course.last.Ahead? && m.course.last.commits > 0))
    }

    ghost method LogCommitted()
      requires Valid() && mon.course.last == Changes(true) && mon.tree.intact
      modifies this`log, this`mon
      ensures Valid() && mon.own == old(mon).own && Goes(old(mon), mon, Committed)
    {
      hide Inv, Valid;
      Emit(Committed);
    }

    ghost method LogRemote(matches: bool)
      requires Valid() && MayPublish(mon)
      modifies this`log, this`mon
      ensures Valid() && mon.own == old(mon).own && Goes(old(mon), mon, Remote(matches))
    {
      hide Inv, Valid;
      Emit(Remote(matches));
    }

    // ---- what is logged ---------------------------------------------------------------------------------------

    ghost method LogSlot(provider: string)
      requires Valid()
      modifies this`log, this`mon
      ensures Valid() && Calm(old(mon), mon) && mon.own == old(mon).own && mon.read.slot == Some(provider)
    {
      hide Inv, Valid;
      Emit(Slotted(provider));
    }

    ghost method LogRenewed(owner: string, now: int)
      requires Valid() && |history.txs| > 0 && mon.clock < |history.txs| && claim.leaseOwner == Some(owner)
      requires RenewedAt(history, claim.id, leaseSeconds, owner, now, |history.txs| - 1)
      modifies this`log, this`mon
      ensures Valid() && Calm(old(mon), mon) && mon.own == old(mon).own && mon.prep.level == 1
      ensures log == old(log) + [Renewed(owner, now, |history.txs| - 1)]
    {
      hide Inv, Valid, RenewedAt;
      Emit(Renewed(owner, now, |history.txs| - 1));
    }

    ghost method LogScope(live: Snapshot)
      requires Valid() && InScope(live, Claim()) && mon.read.issue == Some(live)
      modifies this`log, this`mon
      ensures Valid() && Calm(old(mon), mon) && mon.own == old(mon).own && log == old(log) + [ScopeOk(live)]
      ensures old(mon).prep.level == 1 ==> mon.prep.level == 2
    {
      hide Inv, Valid, InScope;
      Emit(ScopeOk(live));
    }

    ghost method LogGuard(job: Job, live: Snapshot, openPr: Option<int>, allow: bool, seen: bool)
      requires Valid() && GuardReads(mon.read, job, live, openPr, allow, seen, Claim())
      requires GuardVerdict(job, live, openPr, allow, seen).None?
      modifies this`log, this`mon
      ensures Valid() && Calm(old(mon), mon) && mon.own == old(mon).own
      ensures log == old(log) + [Guarded(job, live, openPr, allow, seen)]
      ensures mon.read.body == old(mon).read.body && mon.prep.lookup == old(mon).prep.lookup && mon.prep.passed
      ensures old(mon).prep.level >= 2 ==>
        mon.prep.level == 3 &&
        mon.prep.branchOk == if allow then mon.own.Some? && job.prNumber == mon.own else !seen
    {
      hide Inv, Valid, GuardVerdict, GuardReads;
      Emit(Guarded(job, live, openPr, allow, seen));
    }

    ghost method LogMatched(job: Job, live: Snapshot)
      requires Valid() && AboutClaim(job, claim) && mon.course.last.Nothing?
      requires mon.read.issue == Some(live) && mon.read.provider == Some(true)
      requires ClaimStillMatches(job, live) && InScope(live, Claim())
      modifies this`log, this`mon
      ensures Valid() && mon.own == old(mon).own && Goes(old(mon).(matched := true), mon, Matched(job, live))
    {
      hide Inv, Valid, InScope, ClaimStillMatches;
      Emit(Matched(job, live));
    }

    ghost method LogMismatched(job: Job, live: Snapshot, known: bool)
      requires Valid() && AboutClaim(job, claim) && mon.course.last.Nothing?
      requires mon.read.issue == Some(live) && mon.read.provider == Some(known)
      requires !(ClaimStillMatches(job, live) && InScope(live, Claim()) && known)
      modifies this`log, this`mon
      ensures Valid() && mon.own == old(mon).own && Goes(old(mon), mon, Mismatched(job, live, known))
    {
      hide Inv, Valid, InScope, ClaimStillMatches;
      Emit(Mismatched(job, live, known));
    }

    ghost method LogAdopted(id: JobId)
      requires Valid() && id == claim.id && id in store.jobs
      requires mon.course.last.LookedUp? && mon.course.last.found.Some?
      requires store.jobs[id].prNumber == mon.course.last.found
      modifies this`log, this`mon
      ensures Valid() && mon.own == old(mon).own
      ensures Goes(old(mon), mon, Adopted(store.jobs[id], |history.txs|))
    {
      hide Inv, Valid, SeenAt;
      SeesRow(id);
      Emit(Adopted(store.jobs[id], |history.txs|));
    }

    ghost method LogJudged(id: JobId)
      requires Valid() && id == claim.id && id in store.jobs && mon.course.last.Waited? && !mon.prOpen
      modifies this`log, this`mon
      ensures Valid() && mon.own == old(mon).own
      ensures Goes(old(mon), mon, Judged(store.jobs[id], |history.txs|, old(mon).course.last.result.outcome))
    {
      hide Inv, Valid, SeenAt;
      SeesRow(id);
      Emit(Judged(store.jobs[id], |history.txs|, mon.course.last.result.outcome));
    }

    ghost method LogCaught(id: JobId, exn: Exn, limited: Option<string>)
      requires Valid() && id == claim.id && id in store.jobs && Thrown(mon, exn)
      requires limited.Some? ==> exn == ProviderError
      modifies this`log, this`mon
      ensures Valid() && mon.own == old(mon).own
      ensures Goes(old(mon), mon, Caught(exn, store.jobs[id], |history.txs|, limited))
    {
      hide Inv, Valid, SeenAt;
      SeesRow(id);
      Emit(Caught(exn, store.jobs[id], |history.txs|, limited));
    }

    /** The counts after a turn was started. */
    function TallyTurn(m: Monitor, role: Role): Tally {
      if role.Reviewer? then m.tally
      else if m.prOpen then m.tally.(repairs := m.tally.repairs + 1)
      else if m.course.last.Corrigible? then m.tally.(corrections := m.tally.corrections + 1)
      else m.tally
    }

    ghost method LogTurn(role: Role, provider: string)
      requires Valid() && mon.matched && MayTurn(mon, role, Claim()) && Plays(role, provider, Claim())
      requires mon.read.slot == Some(provider) && (mon.course.last.SetUp? ==> mon.tree.intact)
      modifies this`log, this`mon
      ensures Valid() && mon.own == old(mon).own
      ensures Goes(old(mon).(turns := old(mon).turns + 1, work := mon.work, tree := mon.tree,
                             tally := TallyTurn(old(mon), role)), mon, Turn(role, provider))
    {
      hide Inv, Valid, MayTurn, Plays;
      Emit(Turn(role, provider));
    }

    /** The counts after a turn was waited for. */
    function TallyWait(m: Monitor, role: Role, run: string, result: TurnResult): Tally {
      if role.Reviewer? then m.tally.(findings := result.findings)
      else if !m.prOpen && m.tally.corrections == 0 then m.tally.(named := NameOf(result.conversation, run))
      else m.tally
    }

    ghost method LogWaited(role: Role, provider: string, run: string, named: string, result: TurnResult, from: nat)
      requires Valid() && MayWait(mon, role, run, named) && Plays(role, provider, Claim())
      requires mon.clock <= from <= |history.txs|
      requires NamedThroughout(history, claim.id, provider, named, from, |history.txs|)
      modifies this`log, this`mon
      ensures Valid() && mon.own == old(mon).own
      ensures Goes(old(mon).(tally := TallyWait(old(mon), role, run, result)), mon,
                   Waited(role, provider, run, named, result, from, |history.txs|))
    {
      hide Inv, Valid, MayWait, Plays, NamedThroughout, NameOf;
      Emit(Waited(role, provider, run, named, result, from, |history.txs|));
    }

    ghost method LogRound(results: seq<bool>)
      requires Valid() && mon.course.last == Listed(|results|) && mon.tally.ran == results
      requires results != [] ==> mon.tree.intact
      modifies this`log, this`mon
      ensures Valid() && mon.own == old(mon).own
      ensures Goes(old(mon).(work := old(mon).work.(validated := Passed(results))), mon, Round(results))
    {
      hide Inv, Valid, Passed;
      Emit(Round(results));
    }

    ghost method LogPushed(branch: string, first: bool)
      requires Valid() && branch == claim.branch && mon.prep.level == 3 && GoodWork(mon)
      requires if first then mon.course.last == Remote(false) && mon.prep.branchOk && !mon.prOpen
        else mon.course.last.Committed? && mon.prOpen
      modifies this`log, this`mon
      ensures Valid() && mon.own == old(mon).own && Goes(old(mon), mon, Pushed(branch, first))
    {
      hide Inv, Valid;
      Emit(Pushed(branch, first));
    }

    ghost method LogPrWritten(branch: string, created: bool)
      requires Valid() && branch == claim.branch && mon.prep.level == 3 && Sent(mon) && mon.begun > 0
      requires mon.prep.lookup.Some? && (created <==> mon.prep.lookup.value.None?)
      modifies this`log, this`mon
      ensures Valid() && mon.own == old(mon).own && Goes(old(mon), mon, PrWritten(branch, created))
    {
      hide Inv, Valid;
      Emit(PrWritten(branch, created));
    }

    ghost method LogLabel(live: Snapshot)
      requires Valid() && mon.course.last.PrWritten? && mon.course.last.created
      requires mon.read.issue == Some(live) && Labelable(live, Claim())
      modifies this`log, this`mon
      ensures Valid() && mon.own == old(mon).own && Goes(old(mon), mon, PrLabeled)
    {
      hide Inv, Valid, Labelable;
      Emit(PrLabeled);
    }

    ghost method LogEvidence(number: int, body: string, validation: string, written: string)
      requires Valid() && mon.prep.level == 3 && MayUpdate(mon) && mon.own == Some(number)
      requires mon.read.body == Some(body) && Evidence.Update(body, validation) == Some(written)
      modifies this`log, this`mon
      ensures Valid() && mon.own == old(mon).own
      ensures Goes(old(mon), mon, EvidenceWritten(number, body, validation, written))
    {
      hide Inv, Valid, Evidence.Update;
      Emit(EvidenceWritten(number, body, validation, written));
    }

    ghost method LogReview(number: int)
      requires Valid() && mon.prep.level == 3 && mon.own == Some(number)
      requires mon.course.last.Waited? && mon.course.last.role.Reviewer? && Complete(mon.course.last)
      modifies this`log, this`mon
      ensures Valid() && mon.own == old(mon).own && Goes(old(mon), mon, ReviewPosted(number))
    {
      hide Inv, Valid, Complete;
      Emit(ReviewPosted(number));
    }

    ghost method LogBegan()
      requires Valid() && mon.course.last.Started? && mon.course.last.role.Implementer? && mon.begun == 0 && !mon.prOpen
      modifies this`log, this`mon
      ensures Valid() && mon.own == old(mon).own
      ensures Calm(old(mon).(begun := old(mon).begun + 1, tally := old(mon).tally.(served := true)), mon)
    {
      hide Inv, Valid;
      Emit(Began);
    }

    ghost method LogBackoff(provider: string, seconds: int, now: int)
      requires Valid() && |history.txs| > 0 && mon.clock < |history.txs|
      requires RestedAt(history, provider, seconds, now, |history.txs| - 1)
      modifies this`log, this`mon
      ensures Valid() && mon.own == old(mon).own
      ensures Calm(old(mon).(course := old(mon).course.(rested := Some(provider))), mon)
    {
      hide Inv, Valid, RestedAt;
      Emit(BackedOff(provider, seconds, now, |history.txs| - 1));
    }

    /** The monitor after a move. */
    predicate MovesOn(m: Monitor, m': Monitor, to: JobState, kept: bool) {
      Calm(m.(prOpen := m.prOpen || to == PrOpen, tally := m.tally.(served := m.tally.served || kept),
              course := Course(Recorded(to, kept), None, if kept then None else Some(to))), m')
    }

    /** A review starts prepared like a mutation, and an adopted pull request in a verified worktree. */
    predicate Readied(m: Monitor, to: JobState, kept: bool) {
      (to == Reviewing ==> m.prep.level == 3) && (kept && m.course.last.Adopted? ==> m.tree.checkedOut && m.tree.intact)
    }

    ghost method LogMove(to: JobState, kept: bool)
      requires Valid() && Leads(mon, to, kept, Claim()) && Readied(mon, to, kept)
      modifies this`log, this`mon
      ensures Valid() && mon.own == old(mon).own && MovesOn(old(mon), mon, to, kept)
    {
      hide Inv, Valid, Leads;
      Emit(Recorded(to, kept));
    }

    // ---- other processes ------------------------------------------------------------------------------------

    method AnyAction() returns (a: Action) {
      a := *;
    }

    /** One transaction of another process, if it is one that may fall into a run. */
    method Other(id: JobId)
      requires Ready(id)
      modifies store, this`history
      ensures Ready(id) && Quietly(old(store.jobs[id]), store.jobs[id])
      ensures AtMostOne(old(history), old(store.View()))
    {
      hide Good;
      var a := AnyAction();
      if Quiet(store.View(), a, id) {
        QuietFollows(store.View(), a, id);
        QuietOpens(store.View(), a, id);
        hide Inv, Next, Quiet, RowOk, LeadsTo;
        ghost var before := store.View();
        store.Foreign(a);
        assert Makes(before, false, a);
        Note(false, a);
        RowOkKept(old(store.jobs[id]), store.jobs[id], claim, StandingOf(mon));
        StillRecorded(old(store.events), old(store.jobs[id]));
        assert IsOne(old(history), before, a);
      }
    }

    /** Since then there was exactly this transaction of another process. */
    ghost predicate IsOne(past: Past, before: Db, a: Action)
      requires |past.views| > 0
      reads this`history, store
    {
      history == Grow(past, false, a) && store.View() == Next(before, a)
    }

    /** Since then there was no transaction, or one of another process. */
    ghost predicate AtMostOne(past: Past, before: Db)
      requires |past.views| > 0
      reads this`history, store
    {
      (history == past && store.View() == before) || exists a :: IsOne(past, before, a)
    }

    lemma StillRecorded(before: seq<Event>, row: Job)
      requires start.events <= before <= store.events && (OpenedSince(before, |start.events|, claim.id) ==> mon.prOpen)
      requires OpenedSince(store.events, |before|, claim.id) ==> row.state == PrOpen
      requires RowOk(row, claim, StandingOf(mon))
      ensures EventsOk()
    {
      if i :| |start.events| <= i < |store.events| && IsOpened(store.events[i], claim.id) {
        assert i < |before| ==> IsOpened(before[i], claim.id);
      }
    }

    /** Any number of transactions of other processes. */
    method Others(id: JobId)
      requires Ready(id)
      modifies store, this`history
      ensures Ready(id) && Quietly(old(store.jobs[id]), store.jobs[id]) && |old(history).txs| <= |history.txs|
    {
      hide Inv, Valid, EventsOk, Next;
      var n: nat := *;
      while n > 0
        invariant Ready(id) && Quietly(old(store.jobs[id]), store.jobs[id]) && |old(history).txs| <= |history.txs|
      {
        ghost var before := store.jobs[id];
        Other(id);
        QuietlyCompose(old(store.jobs[id]), before, store.jobs[id]);
        n := n - 1;
      }
    }

    /** The same while the worker waits for a turn: the row goes on naming the run it waits for. */
    method OthersMeanwhile(id: JobId, ghost provider: string, ghost named: string)
      requires Ready(id) && NamedIn(store.View(), id, provider, named)
      modifies store, this`history
      ensures Ready(id) && Quietly(old(store.jobs[id]), store.jobs[id])
      ensures NamedThroughout(history, id, provider, named, |old(history).txs|, |history.txs|)
      ensures |old(history).txs| <= |history.txs|
    {
      hide Inv, Valid, EventsOk, Next, NamedIn;
      ghost var from := |history.txs|;
      ReadyShape(id);
      var n: nat := *;
      while n > 0
        invariant Ready(id) && Quietly(old(store.jobs[id]), store.jobs[id])
        invariant NamedIn(store.View(), id, provider, named)
        invariant NamedThroughout(history, id, provider, named, from, |history.txs|) && from <= |history.txs|
      {
        ghost var before, past := store.View(), history;
        ReadyShape(id);
        Other(id);
        QuietlyCompose(old(store.jobs[id]), before.jobs[id], store.jobs[id]);
        StillNamed(before, store.View(), id, provider, named);
        if history != past {
          ghost var a :| IsOne(past, before, a);
          NamedGrows(past, false, a, id, provider, named, from);
        }
        n := n - 1;
      }
    }

    lemma ReadyShape(id: JobId)
      requires Ready(id)
      ensures |history.views| == |history.txs| + 1 && history.views[|history.txs|] == store.View()
      ensures mon.clock <= |history.txs|
    {
    }

    /** What others do to the row leaves the run it names. */
    lemma StillNamed(db: Db, db': Db, id: JobId, provider: string, named: string)
      requires NamedIn(db, id, provider, named) && id in db'.jobs && Quietly(db.jobs[id], db'.jobs[id])
      ensures NamedIn(db', id, provider, named)
    {
    }

    // ---- the worker's own transactions --------------------------------------------------------------------------

    method OwnTransition(id: JobId, m: StoreSpec.Move, now: int) returns (reply: Reply<Job>)
      requires Valid() && LegalMove(m)
      modifies store, this`history
      ensures Valid() && store.View() == Transition(old(store.View()), id, m, now)
      ensures reply.Ok? <==> id in old(store.jobs) && MoveAllowed(old(store.jobs)[id].state, m.to)
      ensures reply.Ok? ==> id in store.jobs && reply.value == store.jobs[id]
    {
      hide Good, LeadsTo;
      ghost var view := store.View();
      TransitionKeepsInv(view, id, m, now);
      hide Inv, Transition;
      reply := store.Transition(id, m, now);
      assert Makes(view, true, Transit(id, m, now));
      Note(true, Transit(id, m, now));
    }

    method OwnUpdate(id: JobId, p: StoreSpec.Patch, now: int) returns (job: Job)
      requires Valid() && p.snapshot.None? && id in store.jobs
      modifies store, this`history
      ensures Valid() && store.View() == UpdateJob(old(store.View()), id, p, now)
      ensures id in store.jobs && job == store.jobs[id]
    {
      hide Good, LeadsTo;
      ghost var view := store.View();
      UpdateKeepsInv(view, id, p, now);
      hide Inv, UpdateJob;
      var reply := store.UpdateJob(id, p, now);
      job := reply.value;
      assert Makes(view, true, Update(id, p, now));
      Note(true, Update(id, p, now));
    }

    method OwnBegin(id: JobId, conversation: string, now: int) returns (job: Job)
      requires Valid() && id in store.jobs && store.jobs[id].state == Running
      modifies store, this`history
      ensures Valid() && store.View() == StoreSpec.BeginAttempt(old(store.View()), id, Some(conversation), now)
      ensures id in store.jobs && job == store.jobs[id]
    {
      hide Good, LeadsTo;
      ghost var view := store.View();
      BeginKeepsInv(view, id, Some(conversation), now);
      hide Inv, StoreSpec.BeginAttempt;
      var reply := store.BeginAttempt(id, Some(conversation), now);
      job := reply.value;
      assert Makes(view, true, Begin(id, Some(conversation), now));
      Note(true, Begin(id, Some(conversation), now));
    }

    /** The renewal is the last transaction of the history, and that it succeeds or not is in the history. */
    method OwnRenewal(id: JobId, owner: string, now: int) returns (renewed: bool)
      requires Valid() && id == claim.id
      modifies store, this`history
      ensures Valid() && store.View() == RenewLease(old(store.View()), id, owner, leaseSeconds, now)
      ensures |history.txs| == |old(history).txs| + 1 && mon.clock < |history.txs| && Inv(old(store.View()))
      ensures renewed <==> Renewable(old(store.View()), id, owner, now)
      ensures renewed ==> RenewedAt(history, claim.id, leaseSeconds, owner, now, |history.txs| - 1)
      ensures !renewed ==> RefusedAt(history, claim.id, leaseSeconds, owner, now, |history.txs| - 1)
    {
      hide Good;
      ghost var view := store.View();
      RenewKeepsInv(view, id, owner, leaseSeconds, now);
      hide Inv, RenewLease, Renewable, IsPast, Backed;
      renewed := store.RenewLease(id, owner, leaseSeconds, now);
      assert Makes(view, true, Action.Renew(id, owner, leaseSeconds, now));
      PastShape(view);
      Note(true, Action.Renew(id, owner, leaseSeconds, now));
    }

    // ---- the row --------------------------------------------------------------------------------------------

    /** The store half of a move, after others acted. */
    method Shift(job: Job, to: JobState, phase: Option<string>, release: Option<bool>) returns (reply: Reply<Job>)
      requires Ready(job.id) && WorkerMove(store.jobs[job.id], to, release)
      modifies store, this`history
      ensures Valid() && job.id in store.jobs && start.events <= store.events
      ensures reply.Err? ==> Ready(job.id) && Quietly(old(store.jobs[job.id]), store.jobs[job.id])
      ensures reply.Err? ==> !MoveAllowed(store.jobs[job.id].state, to)
      ensures reply.Ok? ==> reply.value == store.jobs[job.id]
      ensures reply.Ok? && OpenedSince(store.events, |start.events|, claim.id) ==> mon.prOpen || to == PrOpen
      ensures reply.Ok? ==>
        exists mid, now :: Shifts(old(store.jobs[job.id]), mid, reply.value, to, phase, release, now)
    {
      hide Valid, RowOk;
      Others(job.id);
      var now := Clock();
      ghost var mid, before := store.jobs[job.id], store.events;
      reply := OwnTransition(job.id, PhasedMove(to, phase, release), now);
      if reply.Ok? {
        assert Shifts(old(store.jobs[job.id]), mid, reply.value, to, phase, release, now);
        OnlyMove(before, to);
      }
    }

    /** The row was followed to `mid` and moved from there. */
    ghost predicate Shifts(
      j: Job, mid: Job, j': Job, to: JobState, phase: Option<string>, release: Option<bool>, now: int) {
      Quietly(j, mid) && MoveAllowed(mid.state, to) && j' == Moving(mid, PhasedMove(to, phase, release), now)
    }

    lemma OnlyMove(before: seq<Event>, to: JobState)
      requires start.events <= before && (OpenedSince(before, |start.events|, claim.id) ==> mon.prOpen)
      requires |store.events| == |before| + 1 && before <= store.events
      requires store.events[|before|].kind.Moved? && store.events[|before|].kind.to == to
      ensures OpenedSince(store.events, |start.events|, claim.id) ==> mon.prOpen || to == PrOpen
    {
      if i :| |start.events| <= i < |store.events| && IsOpened(store.events[i], claim.id) {
        assert i < |before| ==> IsOpened(before[i], claim.id);
      }
    }

    /** What a move that keeps the lease asks of the row: the run has it in hand, and no retry request is left. */
    predicate MayKeep(m: Monitor, j: Job, release: Option<bool>) {
      release == Some(false) ==> m.course.decided.None? && !j.retry
    }

    /** One transition of the row to where the last answer leads; a rejected one is a store error and changes
        nothing. */
    method Move(job: Job, to: JobState, phase: Option<string>, release: Option<bool>) returns (r: Step<Job>)
      requires Ready(job.id) && WorkerMove(store.jobs[job.id], to, release)
      requires MayMove(mon.prOpen, store.jobs[job.id], to) && Leads(mon, to, release == Some(false), Claim())
      requires MayKeep(mon, store.jobs[job.id], release) && Readied(mon, to, release == Some(false))
      modifies store, this`log, this`mon, this`history
      ensures Ready(job.id) && mon.own == old(mon).own
      ensures r.Return? ==> MovesOn(old(mon), mon, to, release == Some(false))
      ensures r.Return? ==> r.value == store.jobs[job.id] && r.value.state == to && AboutClaim(r.value, claim)
      ensures r.Return? ==>
        r.value.attempt == old(store.jobs[job.id]).attempt && r.value.prNumber == old(store.jobs[job.id]).prNumber
      ensures r.Return? && phase.Some? ==> r.value.phase == phase.value
      ensures r.Return? && release != Some(false) ==> Settled(r.value)
      ensures r.Return? && release == Some(false) ==> Held(r.value)
      ensures r.Raise? ==>
        r.exn == KnownError && Unmoved(old(mon), mon, r) && Quietly(old(store.jobs[job.id]), store.jobs[job.id])
      ensures r.Raise? ==> !MoveAllowed(store.jobs[job.id].state, to)
    {
      hide Inv, Valid, OpenedSince, Leads, RowOk, Quietly, WorkerMove, MayMove, MayKeep, Readied;
      var reply := Shift(job, to, phase, release);
      if reply.Err? {
        r := Refuse(job.id, to);
        return;
      }
      Moved(old(store.jobs[job.id]), reply.value, to, phase, release);
      hide Shifts, MoveAllowed;
      LogMove(to, release == Some(false));
      return Return(reply.value);
    }

    /** The tables have refused a move. */
    method Refuse(id: JobId, to: JobState) returns (r: Step<Job>)
      requires Ready(id) && !MoveAllowed(store.jobs[id].state, to)
      modifies this`log, this`mon
      ensures Ready(id) && r == Raise(KnownError) && Unmoved(old(mon), mon, r) && mon.own == old(mon).own
    {
      hide Inv, Valid, OpenedSince, RowOk, MoveAllowed, SeenAt;
      SeesRow(id);
      r := Throw(KnownError, MoveRefused(to, store.jobs[id], |history.txs|));
    }

    function StandingMoved(m: Monitor, to: JobState, kept: bool): Standing {
      Standing(m.begun, m.prOpen || to == PrOpen, m.tally.served || kept, if kept then None else Some(to))
    }

    lemma Moved(j: Job, j': Job, to: JobState, phase: Option<string>, release: Option<bool>)
      requires exists mid, now :: Shifts(j, mid, j', to, phase, release, now)
      requires RowOk(j, claim, StandingOf(mon)) && WorkerMove(j, to, release) && MayMove(mon.prOpen, j, to)
      requires MayKeep(mon, j, release)
      ensures RowOk(j', claim, StandingMoved(mon, to, release == Some(false))) && j'.state == to
      ensures AboutClaim(j', claim)
      ensures j'.prNumber == j.prNumber && j'.attempt == j.attempt && (phase.Some? ==> j'.phase == phase.value)
      ensures (release != Some(false) ==> Settled(j')) && (release == Some(false) ==> Held(j'))
    {
      var mid, now :| Shifts(j, mid, j', to, phase, release, now);
      FollowsKeeps(j, mid);
      RowOkKept(j, mid, claim, StandingOf(mon));
      MovingKeeps(mid, to, phase, release, now);
      hide Quietly, Follows;
    }

    method Patch(job: Job, p: StoreSpec.Patch) returns (job': Job)
      requires Ready(job.id) && p.snapshot.None? && p.routing.None? && p.key.None? && p.retry != Some(true)
      modifies store, this`history
      ensures Ready(job.id) && job' == store.jobs[job.id] && Follows(old(store.jobs[job.id]), job')
      ensures AboutClaim(job', claim) && Patches(old(store.jobs[job.id]), job', p)
    {
      hide Valid, OpenedSince;
      Others(job.id);
      var now := Clock();
      ghost var before := store.jobs[job.id];
      job' := OwnUpdate(job.id, p, now);
      FollowsCompose(old(store.jobs[job.id]), before, job');
      RowOkKept(before, job', claim, StandingOf(mon));
    }

    /** What a patch writes, and what stays. */
    predicate Patches(j: Job, j': Job, p: StoreSpec.Patch) {
      && j'.prNumber == (if p.prNumber.Some? then p.prNumber else j.prNumber)
      && j'.conversation == Coalesce(p.conversation, j.conversation)
      && j'.reviewConversation == Coalesce(p.reviewConversation, j.reviewConversation)
      && (p.retry == Some(false) ==> !j'.retry)
      && (j.state in ACTIVE && j'.state == j.state ==> j'.phase == Or(p.phase, j.phase))
    }

    /** The store half of a counted attempt, after others acted. */
    method Count(job: Job, conversation: string) returns (job': Job)
      requires Working(job)
      modifies store, this`history
      ensures Valid() && EventsOk() && job.id in store.jobs && job' == store.jobs[job.id]
      ensures RowOk(job', claim, StandingOf(mon).(begun := mon.begun + 1, served := true)) && job'.state == Running
      ensures job'.attempt == job.attempt + 1 && job'.conversation == Some(conversation) && AboutClaim(job', claim)
    {
      hide Valid, OpenedSince;
      Others(job.id);
      FollowsKeeps(old(store.jobs[job.id]), store.jobs[job.id]);
      hide Follows;
      var now := Clock();
      ghost var before, row := store.events, store.jobs[job.id];
      job' := OwnBegin(job.id, conversation, now);
      OneNotOpened(before, row);
    }

    lemma OneNotOpened(before: seq<Event>, row: Job)
      requires start.events <= before && (OpenedSince(before, |start.events|, claim.id) ==> mon.prOpen)
      requires |store.events| == |before| + 1 && before <= store.events && store.events[|before|].kind.AttemptStarted?
      requires RowOk(row, claim, StandingOf(mon))
      ensures EventsOk()
    {
      StillRecorded(before, row);
    }

    /** Count the accepted turn as an attempt. */
    method BeginAttempt(job: Job, conversation: string) returns (job': Job)
      requires Working(job) && mon.course.last.Started? && mon.course.last.role.Implementer? && mon.begun == 0
      modifies store, this`log, this`mon, this`history
      ensures Working(job') && job'.id == job.id && job'.attempt == job.attempt + 1
      ensures Calm(old(mon).(begun := old(mon).begun + 1, tally := old(mon).tally.(served := true)), mon)
      ensures mon.own == old(mon).own && store.jobs[job.id].conversation == Some(conversation)
    {
      hide Inv, Valid, OpenedSince, RowOk;
      job' := Count(job, conversation);
      LogBegan();
    }

    // ---- before a mutation ----------------------------------------------------------------------------------

    /** Renew the lease, then compare the live concurrency scope with the job's: its own renewal and its own check. */
    method RequireLiveLease(job: Job) returns (r: Step<()>)
      requires Ready(job.id) && AboutClaim(job, claim)
      modifies store, this`log, this`mon, this`history
      ensures Ready(job.id) && Quietly(old(store.jobs[job.id]), store.jobs[job.id]) && Unmoved(old(mon), mon, r)
      ensures mon.own == old(mon).own
      ensures r.Return? ==> mon.prep.level == 2 && Held(store.jobs[job.id])
      ensures r.Return? ==> |log| == |old(log)| + 3 && log[..|old(log)|] == old(log)
      ensures r.Return? ==> log[|old(log)|].Renewed? && log[|old(log)|].at == |history.txs| - 1 >= |old(history).txs|
      ensures r.Return? ==> log[|old(log)| + 1].ReadIssue? && log[|old(log)| + 2].ScopeOk?
    {
      hide Inv, Valid, Quietly, RowOk, OpenedSince, RenewedAt, RefusedAt, Held;
      var renewed;
      ghost var owner, now;
      renewed, owner, now := Renew(job);
      if !renewed {
        r := Throw(KnownError, LeaseLost(owner, now, |history.txs| - 1, false));
        return;
      }
      LogRenewed(owner, now);
      r := CheckScope(job);
    }

    /** Compare the live concurrency scope with the job's. */
    method CheckScope(job: Job) returns (r: Step<()>)
      requires Valid() && AboutClaim(job, claim) && mon.prep.level == 1
      modifies this`log, this`mon
      ensures Valid() && Unmoved(old(mon), mon, r) && mon.own == old(mon).own && old(log) <= log
      ensures r.Return? ==> mon.prep.level == 2 && |log| == |old(log)| + 2
      ensures r.Return? ==> log[|old(log)|].ReadIssue? && log[|old(log)| + 1].ScopeOk?
    {
      hide Inv, Valid;
      var live :- AskIssue();
      var key := scopeKey(job.repository, live.labels);
      if key != Some(job.key) {
        r := Throw(StaleIssue, OutOfScope(live));
        return;
      }
      LogScope(live);
      return Return(());
    }

    /** A renewal is the last transaction of the history, and when it succeeds the row holds the claimed lease. */
    method Renew(job: Job) returns (renewed: bool, ghost owner: string, ghost now: int)
      requires Ready(job.id)
      modifies store, this`history
      ensures Ready(job.id) && Quietly(old(store.jobs[job.id]), store.jobs[job.id])
      ensures |old(history).txs| < |history.txs| && mon.clock < |history.txs|
      ensures renewed ==> RenewedAt(history, claim.id, leaseSeconds, owner, now, |history.txs| - 1)
      ensures !renewed ==> RefusedAt(history, claim.id, leaseSeconds, owner, now, |history.txs| - 1)
      ensures renewed ==> Held(store.jobs[job.id]) && claim.leaseOwner == Some(owner)
    {
      hide Inv, Valid, OpenedSince, RenewedAt, RefusedAt;
      Others(job.id);
      ghost var before, view := store.jobs[job.id], store.View();
      var at := Clock();
      var name := if job.leaseOwner.Some? then job.leaseOwner.value else "";
      owner, now := name, at;
      renewed := OwnRenewal(job.id, name, at);
      RenewalOfRow(view, job.id, name, at);
      hide RenewLease, Renewable;
      QuietlyCompose(old(store.jobs[job.id]), before, store.jobs[job.id]);
      RowOkKept(before, store.jobs[job.id], claim, StandingOf(mon));
    }

    lemma RenewalOfRow(db: Db, id: JobId, owner: string, now: int)
      requires Inv(db) && id in db.jobs
      ensures var r := RenewLease(db, id, owner, leaseSeconds, now);
        id in r.jobs && Quietly(db.jobs[id], r.jobs[id]) && r.events == db.events
      ensures Renewable(db, id, owner, now) ==>
        var j := RenewLease(db, id, owner, leaseSeconds, now).jobs[id]; Held(j) && j.leaseOwner == Some(owner)
    {
      RenewFollows(db, id, owner, leaseSeconds, now);
      if Renewable(db, id, owner, now) {
        RenewedRow(db, id, owner, leaseSeconds, now);
      }
    }

    /** The live guard about the claimed job. */
    method GuardMutation(job: Job, allow: bool) returns (r: Step<()>)
      requires Valid() && AboutClaim(job, claim)
      modifies this`log, this`mon
      ensures Valid() && Unmoved(old(mon), mon, r) && mon.own == old(mon).own && old(log) <= log
      ensures r.Return? ==> |log| > |old(log)| && log[|log| - 1].Guarded?
      ensures r.Return? ==> log[|log| - 1].job == job && log[|log| - 1].allow == allow
      ensures r.Return? && old(mon).prep.level >= 2 ==> mon.prep.level == 3
      ensures r.Return? && old(mon).prep.level >= 2 && (allow ==> mon.own.Some? && job.prNumber == mon.own) ==>
        mon.prep.branchOk
      ensures r.Return? ==> mon.read.body == old(mon).read.body && mon.prep.lookup == old(mon).prep.lookup
      ensures r.Return? ==> mon.prep.passed
    {
      hide Inv, Valid;
      var live :- AskIssue();
      var openPr :- AskPr();
      var branchExists := false;
      if !allow {
        branchExists :- AskBranch();
      }
      if GuardVerdict(job, live, openPr, allow, branchExists).Some? {
        hide GuardVerdict;
        r := Throw(StaleIssue, GuardRefused(job, live, openPr, allow, branchExists));
        return;
      }
      if !allow {
        GuardSeesNoBranch(job, live, openPr, branchExists);
      }
      hide GuardVerdict;
      LogGuard(job, live, openPr, allow, branchExists);
      return Return(());
    }

    /** Renew the lease while waiting for a slot; a refused renewal ends the wait. */
    method KeepLease(job: Job) returns (r: Step<()>, ghost owner: string, ghost now: int)
      requires Ready(job.id)
      modifies store, this`log, this`mon, this`history
      ensures Ready(job.id) && Quietly(old(store.jobs[job.id]), store.jobs[job.id])
      ensures Unmoved(old(mon), mon, r) && mon.own == old(mon).own && (r.Return? ==> mon == old(mon))
      ensures |old(history).txs| < |history.txs|
      ensures r.Return? ==> RenewedAt(history, claim.id, leaseSeconds, owner, now, |history.txs| - 1)
    {
      hide Inv, Valid, RefusedAt, RenewedAt, RowOk, OpenedSince, Quietly;
      var renewed;
      renewed, owner, now := Renew(job);
      if !renewed {
        r := Throw(ProviderError, LeaseLost(owner, now, |history.txs| - 1, true));
        return;
      }
      r := Return(());
    }

    /** Wait for a provider slot, renewing the lease meanwhile. */
    method ProviderSlot(job: Job, provider: string) returns (r: Step<()>)
      requires Ready(job.id)
      modifies store, this`log, this`mon, this`history
      ensures Ready(job.id) && Quietly(old(store.jobs[job.id]), store.jobs[job.id])
      ensures Unmoved(old(mon), mon, r) && mon.own == old(mon).own
      ensures r.Return? ==> mon.read.slot == Some(provider)
    {
      hide Inv, Valid, RefusedAt, RenewedAt, RowOk, OpenedSince;
      var configured: bool := *;
      if !configured {
        r := Throw(ProviderError, NoSlot);
        return;
      }
      var rounds: nat := *;
      while rounds > 0
        invariant Ready(job.id) && Quietly(old(store.jobs[job.id]), store.jobs[job.id]) && mon == old(mon)
      {
        ghost var before := store.jobs[job.id];
        var kept, _, _ := KeepLease(job);
        QuietlyCompose(old(store.jobs[job.id]), before, store.jobs[job.id]);
        hide Quietly;
        var _ :- kept;
        rounds := rounds - 1;
      }
      LogSlot(provider);
      return Return(());
    }

    /** Wait for an accepted turn while others act; the row names the run all the time. */
    method Wait(job: Job, role: Role, provider: string, run: string, ghost named: string) returns (r: Step<TurnResult>)
      requires Ready(job.id) && MayWait(mon, role, run, named) && Plays(role, provider, Claim())
      requires NamedIn(store.View(), job.id, provider, named)
      modifies store, this`log, this`mon, this`history
      ensures Ready(job.id) && Quietly(old(store.jobs[job.id]), store.jobs[job.id]) && mon.own == old(mon).own
      ensures r.Raise? ==> Unmoved(old(mon), mon, r)
      ensures r.Return? ==>
        Goes(old(mon).(tally := TallyWait(old(mon), role, run, r.value)), mon, mon.course.last) &&
        mon.course.last.Waited? && mon.course.last.role == role && mon.course.last.result == r.value
    {
      hide Inv, Valid, RowOk, OpenedSince, NamedIn, NamedThroughout;
      ghost var from := |history.txs|;
      ReadyShape(job.id);
      OthersMeanwhile(job.id, provider, named);
      hide Quietly;
      r := Ask();
      if r.Return? {
        LogWaited(role, provider, run, named, r.value, from);
      }
    }

    // ---- finishing ------------------------------------------------------------------------------------------

    /** Publish the status and write the report; either may raise. */
    method Finish(job: Job) returns (r: Step<()>)
      requires Finished(job.id)
      modifies store, this`log, this`mon, this`history
      ensures Finished(job.id) && Unmoved(old(mon), mon, r) && mon.own == old(mon).own
    {
      hide Inv, Valid;
      Others(job.id);
      FollowsKeeps(old(store.jobs[job.id]), store.jobs[job.id]);
      hide RowOk, Follows;
      var _ :- Ask<()>();
      var _ :- Ask<()>();
      return Return(());
    }

    /** A move that ends the run without a pull request, then `Finish`. */
    method Stop(job: Job, to: JobState) returns (r: Step<()>)
      requires Ready(job.id) && to !in {Running, PrOpen, Reviewing} && !mon.prOpen && Leads(mon, to, false, Claim())
      modifies store, this`log, this`mon, this`history
      ensures Ready(job.id) && Steady(old(mon), mon) && mon.own == old(mon).own && Ends(r, false)
    {
      hide Inv, Valid, Leads, RowOk, OpenedSince;
      var moved :- Move(job, to, None, None);
      r := Finish(moved);
    }

    /** Keep everybody from this provider for a while. */
    method Backoff(provider: string)
      requires Valid()
      modifies store, this`log, this`mon, this`history
      ensures Valid() && store.jobs == old(store.jobs) && store.events == old(store.events)
      ensures Calm(old(mon).(course := old(mon).course.(rested := Some(provider))), mon) && mon.own == old(mon).own
    {
      hide Inv, Valid, RestedAt;
      var seconds: int := *;
      var now := Clock();
      OwnBackoff(provider, seconds, now);
      LogBackoff(provider, seconds, now);
    }

    method OwnBackoff(provider: string, seconds: int, now: int)
      requires Valid()
      modifies store, this`history
      ensures Valid() && store.jobs == old(store.jobs) && store.events == old(store.events)
      ensures |history.txs| > 0 && mon.clock < |history.txs|
      ensures RestedAt(history, provider, seconds, now, |history.txs| - 1)
    {
      hide Good;
      ghost var view := store.View();
      SameTables(view, SetBackoff(view, provider, seconds, now));
      PastShape(view);
      hide Inv, LeadsTo, Quiet;
      store.SetProviderBackoff(provider, seconds, now);
      assert Makes(view, true, Action.Backoff(provider, seconds, now));
      Note(true, Action.Backoff(provider, seconds, now));
    }

    /** Publish the result, then move as it asks; false when the work goes on. */
    method TransitionFromResult(job: Job, result: TurnResult) returns (r: Step<bool>)
      requires Working(job) && mon.course.last.Waited? && mon.course.last.result == result
      modifies store, this`log, this`mon, this`history
      ensures Ready(job.id) && Steady(old(mon), mon) && mon.own == old(mon).own && !mon.prOpen
      ensures Ends(r, r.Return? && !r.value)
      ensures r.Return? && !r.value ==> Working(job) && Result(mon, WorkCompleted)
      ensures r.Return? && !r.value ==> Quietly(old(store.jobs[job.id]), store.jobs[job.id])
    {
      hide Inv, Valid, OpenedSince, RowOk;
      var _ :- Ask<()>();
      Others(job.id);
      FollowsKeeps(old(store.jobs[job.id]), store.jobs[job.id]);
      hide Quietly, Follows, Leads;
      LogJudged(job.id);
      r := ActOn(job, result.outcome);
    }

    /** Move as a result asks, by the row as it is now. */
    method ActOn(job: Job, outcome: Outcome) returns (r: Step<bool>)
      requires Working(job) && mon.course.last.Judged? && mon.course.last.row == store.jobs[job.id]
      requires mon.course.last.outcome == outcome
      modifies store, this`log, this`mon, this`history
      ensures Ready(job.id) && Steady(old(mon), mon) && mon.own == old(mon).own && Ends(r, r.Return? && !r.value)
      ensures r.Return? && !r.value ==>
        Working(job) && Result(mon, WorkCompleted) && store.jobs[job.id] == old(store.jobs[job.id])
    {
      hide Inv, Valid, OpenedSince, RowOk;
      var to := StateAfterTurn(store.jobs[job.id], job.attempt, limits.attempts, outcome);
      if to.None? {
        return Return(false);
      }
      if to == Some(Queued) {
        Backoff(job.routing.implementer);
      }
      ResultLeads(job, outcome, to.value);
      hide StateAfterTurn, Leads;
      var _ :- Stop(job, to.value);
      return Return(true);
    }

    lemma ResultLeads(job: Job, outcome: Outcome, to: JobState)
      requires Working(job) && mon.course.last.Judged? && mon.course.last.outcome == outcome
      requires Some(to) == StateAfterTurn(mon.course.last.row, job.attempt, limits.attempts, outcome)
      requires to == Queued ==> mon.course.rested == Some(job.routing.implementer)
      ensures Leads(mon, to, false, Claim()) && to !in {Running, PrOpen, Reviewing}
    {
      hide Inv, Valid, OpenedSince, RowOk;
    }

    lemma Counted(job: Job)
      requires Claimed(job)
      ensures job.attempt == Attempt(mon, Claim())
    {
    }

    // ---- the stages of a run ----------------------------------------------------------------------------------

    /** Compare the claim with the live issue. `None` when the run stopped, otherwise the open pull request found
        on the job's branch. */
    method Preflight(job: Job) returns (r: Step<Option<Option<int>>>)
      requires Claimed(job) && mon.course.last.Nothing?
      modifies store, this`log, this`mon, this`history
      ensures Ready(job.id) && Steady(old(mon).(matched := mon.matched), mon) && Ends(r, r.Return? && r.value.Some?)
      ensures r.Return? && r.value.Some? ==> Working(job) && mon.course.last == LookedUp(claim.branch, r.value.value)
      ensures r.Return? && r.value.Some? && r.value.value.Some? ==> mon.own == r.value.value
    {
      hide Inv, Valid, OpenedSince, RowOk;
      var live :- AskIssue();
      var known := AskProvider();
      if !ClaimStillMatches(job, live) || scopeKey(job.repository, live.labels) != Some(job.key) || !known {
        LogMismatched(job, live, known);
        var _ :- Stop(job, NeedsGuidance);
        return Return(None);
      }
      LogMatched(job, live);
      var _ :- Ask<()>();
      var existing :- LookUp(job.branch);
      return Return(Some(existing));
    }

    /** Adopt an open pull request found on the branch: end the run there, go on to its review, or, when a retry
        asked for rework, go on implementing. */
    method AdoptPr(job: Job, number: int) returns (r: Step<Option<Job>>)
      requires Working(job) && mon.course.last == LookedUp(claim.branch, Some(number)) && mon.own == Some(number)
      requires mon.tally.repairs == 0
      modifies store, this`log, this`mon, this`history
      ensures Ready(job.id) && Ends(r, r.Return? && r.value.Some?)
      ensures mon.begun == old(mon).begun && mon.turns <= old(mon).turns + 2 * limits.repairs + 1
      ensures !mon.tally.accepted == !old(mon).tally.accepted
      ensures r.Return? && r.value.Some? ==>
        Working(r.value.value) && r.value.value.id == job.id && r.value.value.attempt == job.attempt &&
        MayAssess(mon, Implementer, Claim()) && Steady(old(mon), mon) && mon.own == Some(number) &&
        r.value.value.prNumber == Some(number)
    {
      hide Inv, Valid, MoveAllowed, OpenedSince, RowOk;
      var job' := Patch(job, NO_PATCH.(prNumber := Some(number)));
      FollowsKeeps(old(store.jobs[job.id]), job');
      hide Follows;
      LogAdopted(job.id);
      if !job'.routing.reviewRequired && !job'.retry {
        var moved :- Move(job', PrOpen, None, None);
        var _ :- Finish(moved);
        return Return(None);
      }
      if job'.routing.reviewRequired {
        var _ :- ReviewAdopted(job', number);
        return Return(None);
      }
      return Return(Some(job'));
    }

    /** Check out an adopted pull request and review it, with the lease kept. */
    method ReviewAdopted(job: Job, number: int) returns (r: Step<()>)
      requires Working(job) && mon.course.last.Adopted? && claim.routing.reviewRequired && mon.tally.repairs == 0
      requires mon.own == job.prNumber == store.jobs[job.id].prNumber == Some(number)
      modifies store, this`log, this`mon, this`history
      ensures Ready(job.id) && Ends(r, false) && mon.begun == old(mon).begun
      ensures mon.turns <= old(mon).turns + 2 * limits.repairs + 1 && mon.tally.accepted == old(mon).tally.accepted
    {
      hide Inv, Valid, MoveAllowed, OpenedSince;
      hide RowOk;
      var open :- OpenAdopted(job);
      var _ :- Review(open);
      r := Finish(open);
    }

    /** Check out the adopted branch and record PR_OPEN; the retry request is served. */
    method OpenAdopted(job: Job) returns (r: Step<Job>)
      requires Working(job) && mon.course.last.Adopted? && claim.routing.reviewRequired
      requires mon.own == job.prNumber == store.jobs[job.id].prNumber && mon.own.Some?
      modifies store, this`log, this`mon, this`history
      ensures Ready(job.id) && mon.turns == old(mon).turns && mon.begun == old(mon).begun
      ensures mon.tally == old(mon).tally.(served := mon.tally.served) && (r.Raise? ==> Thrown(mon, r.exn))
      ensures r.Return? ==> r.value.id == job.id && InReview(r.value) && mon.course.last == Recorded(PrOpen, true)
    {
      hide Inv, Valid, MoveAllowed, OpenedSince;
      var _ :- CheckOut();
      var job' := Patch(job, NO_PATCH.(phase := Some("recovered-existing-pr-review"), retry := Some(false)));
      FollowsKeeps(old(store.jobs[job.id]), job');
      hide Follows, Sane, KeepsOpen;
      var _ :- Ask<()>();
      var _ :- Verify();
      var open :- Move(job', PrOpen, None, Some(false));
      hide RowOk;
      var _ :- Ask<()>();
      return Return(open);
    }

    /** Authentication, quota, health and the attempt limit; false when the run stopped. */
    method CheckProvider(job: Job) returns (r: Step<bool>)
      requires Working(job) && MayAssess(mon, Implementer, Claim())
      modifies store, this`log, this`mon, this`history
      ensures Ready(job.id) && Steady(old(mon), mon) && mon.own == old(mon).own && Ends(r, r.Return? && r.value)
      ensures r.Return? && r.value ==> Working(job) && MaySetUp(mon) && FirstHealth(mon)
    {
      hide Inv, Valid, RowOk, OpenedSince;
      Counted(job);
      var health :- AskHealth(Implementer);
      if !health.authenticated {
        var _ :- Stop(job, Failed);
      } else if health.limited {
        if job.attempt >= limits.attempts {
          var _ :- Stop(job, Failed);
        } else {
          Backoff(job.routing.implementer);
          var _ :- Stop(job, Queued);
        }
      } else if !health.healthy {
        var _ :- Stop(job, NeedsGuidance);
      } else if job.attempt >= limits.attempts {
        var _ :- Stop(job, Failed);
      } else {
        return Return(true);
      }
      return Return(false);
    }

    /** Checkout, integrity checks and repository setup; `None` when the run stopped. */
    method Prepare(job: Job) returns (r: Step<Option<Job>>)
      requires Working(job) && MaySetUp(mon)
      modifies store, this`log, this`mon, this`history
      ensures Ready(job.id) && Steady(old(mon), mon) && mon.own == old(mon).own && Ends(r, r.Return? && r.value.Some?)
      ensures r.Return? && r.value.Some? ==>
        Working(r.value.value) && r.value.value.id == job.id && r.value.value.attempt == job.attempt &&
        mon.course.last == SetUp(true) && mon.tree.intact &&
        r.value.value.prNumber == old(store.jobs[job.id]).prNumber
    {
      hide Inv, Valid, RowOk, OpenedSince;
      var _ :- CheckOut();
      var job' := Patch(job, NO_PATCH.(phase := Some("setup")));
      FollowsKeeps(old(store.jobs[job.id]), job');
      hide Follows;
      var _ :- Ask<()>();
      var _ :- Verify();
      var good :- AskSetup();
      if !good {
        var _ :- Stop(job', Blocked);
        return Return(None);
      }
      var _ :- Verify();
      return Return(Some(job'));
    }

    /** Where the run stands before its first turn. */
    ghost predicate Untried(job: Job)
      reads this, store
    {
      Working(job) && mon.begun == 0 && mon.turns == 0 && mon.tally.corrections == 0 && !mon.tally.accepted
    }

    /** The first turn's result is in and the work goes on, under the name the row carries. */
    ghost predicate Tried(job: Job, run: string, corrections: nat)
      reads this, store
    {
      && mon.tally.run == run
      && Working(job) && mon.begun > 0 && mon.tally.corrections == corrections && mon.tally.accepted && mon.tally.served
      && Result(mon, WorkCompleted) && Carries(job)
    }

    /** The row carries the conversation the first turn is known by. */
    ghost predicate Carries(job: Job)
      reads this, store
    {
      job.id in store.jobs && store.jobs[job.id].conversation == Some(mon.tally.named)
    }

    /** Start or resume the implementer, count the attempt once the provider accepted the turn, and wait. The
        current copy of the row and whether the turn was accepted are known also when an exception escapes. */
    method FirstTurn(job: Job) returns (r: Step<Option<string>>, job': Job, accepted: bool)
      requires Untried(job) && mon.course.last == SetUp(true) && mon.tree.intact
      modifies store, this`log, this`mon, this`history
      ensures Ready(job.id) && job'.id == job.id && AboutClaim(job', claim) && !mon.prOpen && mon.own == old(mon).own
      ensures job'.attempt == claim.attempt + mon.begun && (accepted <==> mon.tally.accepted)
      ensures mon.turns <= 1 && mon.begun <= 1 && mon.tally.repairs == old(mon).tally.repairs
      ensures Ends(r, r.Return? && r.value.Some?)
      ensures r.Return? && r.value.Some? ==> Tried(job', r.value.value, 0)
    {
      hide Inv, Valid, RowOk, OpenedSince;
      job', accepted := job, false;
      var _ :- ProviderSlot(job, job.routing.implementer);
      FollowsKeeps(old(store.jobs[job.id]), store.jobs[job.id]);
      hide Quietly, Follows;
      var _ :- Ask<()>();
      r, job', accepted := TakeTurn(job);
    }

    method TakeTurn(job: Job) returns (r: Step<Option<string>>, job': Job, accepted: bool)
      requires Untried(job) && mon.course.last == SetUp(true) && mon.tree.intact
      requires mon.read.slot == Some(job.routing.implementer)
      modifies store, this`log, this`mon, this`history
      ensures Ready(job.id) && job'.id == job.id && AboutClaim(job', claim) && !mon.prOpen && mon.own == old(mon).own
      ensures job'.attempt == claim.attempt + mon.begun && (accepted <==> mon.tally.accepted)
      ensures mon.turns <= 1 && mon.begun <= 1 && mon.tally.repairs == old(mon).tally.repairs
      ensures Ends(r, r.Return? && r.value.Some?)
      ensures r.Return? && r.value.Some? ==> Tried(job', r.value.value, 0)
    {
      hide Inv, Valid, RowOk, OpenedSince;
      job', accepted := job, false;
      LogTurn(Implementer, job.routing.implementer);
      var run :- AskStart(Implementer);
      accepted := true;
      job' := BeginAttempt(job, run);
      var _ :- Ask<()>();
      r, job' := AwaitTurn(job', run);
    }

    /** Wait for the first turn, keep its conversation and act on its result; `None` when the run stopped. */
    method AwaitTurn(job: Job, run: string) returns (r: Step<Option<string>>, job': Job)
      requires Working(job) && mon.begun > 0 && mon.tally.corrections == 0 && mon.tally.accepted && mon.tally.served
      requires mon.tally.run == run
      requires mon.course.last == Started(Implementer, run) && store.jobs[job.id].conversation == Some(run)
      modifies store, this`log, this`mon, this`history
      ensures Ready(job.id) && job'.id == job.id && AboutClaim(job', claim) && job'.attempt == job.attempt
      ensures Steady(old(mon).(tally := mon.tally), mon) && mon.tally == old(mon).tally.(named := mon.tally.named)
      ensures mon.own == old(mon).own && Ends(r, r.Return? && r.value.Some?)
      ensures r.Return? && r.value.Some? ==> Tried(job', r.value.value, 0)
    {
      hide Inv, Valid, OpenedSince;
      job' := job;
      var result :- Wait(job, Implementer, job.routing.implementer, run, run);
      FollowsKeeps(old(store.jobs[job.id]), store.jobs[job.id]);
      hide Quietly;
      ghost var before := store.jobs[job.id];
      job' := Patch(job', NO_PATCH.(conversation := Some(NameOf(result.conversation, run))));
      FollowsKeeps(before, job');
      hide RowOk, Follows;
      var stopped :- TransitionFromResult(job', result);
      return Return(if stopped then None else Some(run)), job';
    }

    /** Run one command between two checks of the worktree. */
    method RunCommand() returns (r: Step<bool>)
      requires Valid() && mon.course.last.Listed? && |mon.tally.ran| < mon.course.last.commands
      modifies this`log, this`mon
      ensures Valid() && mon.own == old(mon).own && Steady(old(mon).(tally := mon.tally), mon)
      ensures mon.tally == old(mon).tally.(ran := mon.tally.ran) && mon.course.decided == old(mon).course.decided
      ensures if r.Raise? then Thrown(mon, r.exn)
        else mon.tally.ran == old(mon).tally.ran + [r.value] && mon.course == old(mon).course && mon.tree.intact
    {
      hide Inv, Valid;
      var _ :- Verify();
      r := AskRun();
      if r.Return? {
        var _ :- Verify();
      }
    }

    /** Run every validation command; the round passes when there is one and all succeed. */
    method RunValidations() returns (r: Step<bool>)
      requires Valid() && MayValidate(mon)
      modifies this`log, this`mon
      ensures Valid() && mon.own == old(mon).own
      ensures Steady(old(mon).(tally := mon.tally, work := mon.work), mon)
      ensures mon.tally == old(mon).tally.(ran := mon.tally.ran) && mon.course.decided == old(mon).course.decided
      ensures r.Raise? ==> Thrown(mon, r.exn)
      ensures r.Return? ==>
        mon.course.last.Round? && mon.work.validated == r.value && mon.work.substantive == old(mon).work.substantive
    {
      hide Inv, Valid;
      var commands :- AskCommands();
      ghost var listed := mon;
      var results: seq<bool> := [];
      for i := 0 to commands
        invariant |results| == i && Valid() && mon.own == old(mon).own
        invariant Calm(listed.(tally := listed.tally.(ran := results), tree := mon.tree), mon)
        invariant results != [] ==> mon.tree.intact
      {
        var ok :- RunCommand();
        results := results + [ok];
      }
      LogRound(results);
      return Return(commands > 0 && forall i :: 0 <= i < |results| ==> results[i]);
    }

    /** Inspect, validate, and correct in the same conversation until the work is substantive and validated, at most
        as often as configured. `None` when the run stopped. */
    method Corrections(job: Job, run: string) returns (r: Step<Option<Job>>)
      requires Tried(job, run, 0)
      modifies store, this`log, this`mon, this`history
      ensures Ready(job.id) && mon.begun == old(mon).begun && mon.turns <= old(mon).turns + limits.corrections
      ensures !mon.prOpen && mon.own == old(mon).own && Ends(r, r.Return? && r.value.Some?)
      ensures mon.tally.accepted && mon.tally.served && mon.tally.repairs == old(mon).tally.repairs
      ensures r.Return? && r.value.Some? ==>
        Working(r.value.value) && r.value.value.id == job.id && mon.course.last.Round? && GoodWork(mon)
      ensures r.Return? && r.value.Some? ==> r.value.value.prNumber == old(store.jobs[job.id]).prNumber
    {
      hide Inv, Valid, OpenedSince, RowOk;
      var job' := job;
      var corrections := 0;
      while true
        invariant Tried(job', run, corrections) && job'.id == job.id && corrections <= limits.corrections
        invariant mon.begun == old(mon).begun && mon.turns <= old(mon).turns + corrections && !mon.prOpen
        invariant mon.own == old(mon).own && mon.tally.repairs == old(mon).tally.repairs
        invariant store.jobs[job.id].prNumber == old(store.jobs[job.id]).prNumber
        decreases limits.corrections - corrections
      {
        var inspected :- Inspect(job');
        job' := inspected.0;
        if inspected.1 {
          return Return(Some(job'));
        }
        var resumable := AskResumable();
        if corrections >= limits.corrections || !resumable {
          var _ :- Stop(job', Failed);
          return Return(None);
        }
        corrections := corrections + 1;
        var stopped :- CorrectionTurn(job', run);
        if stopped {
          return Return(None);
        }
      }
    }

    /** Inspect the changed paths and validate; true when the work is substantive and validated. */
    method Inspect(job: Job) returns (r: Step<(Job, bool)>)
      requires Tried(job, mon.tally.run, mon.tally.corrections)
      modifies store, this`log, this`mon, this`history
      ensures Ready(job.id) && mon.begun == old(mon).begun && mon.turns == old(mon).turns && mon.own == old(mon).own
      ensures mon.tally == old(mon).tally.(ran := mon.tally.ran) && !mon.prOpen && (r.Raise? ==> Thrown(mon, r.exn))
      ensures r.Return? ==>
        Working(r.value.0) && r.value.0.id == job.id && Carries(r.value.0) && mon.course.last.Round? &&
        (r.value.1 <==> GoodWork(mon)) && r.value.0.prNumber == store.jobs[job.id].prNumber
      ensures r.Return? ==> store.jobs[job.id].prNumber == old(store.jobs[job.id]).prNumber
    {
      hide Inv, Valid, OpenedSince, RowOk;
      var paths :- AskPaths(job);
      var substantive := HasSubstantive(job, paths);
      hide HasSubstantive;
      var ok :- RunValidations();
      var job' := Patch(job, NO_PATCH.(phase := Some("validation")));
      FollowsKeeps(old(store.jobs[job.id]), job');
      hide Follows;
      return Return((job', ok && substantive));
    }

    /** One more turn in the conversation of the first. */
    method CorrectionTurn(job: Job, run: string) returns (r: Step<bool>)
      requires Working(job) && mon.begun > 0 && mon.tally.served && mon.tally.accepted && Carries(job)
      requires mon.course.last == Corrigible(true) && mon.tally.corrections < limits.corrections && mon.tally.run == run
      modifies store, this`log, this`mon, this`history
      ensures Ready(job.id) && mon.begun == old(mon).begun && mon.turns <= old(mon).turns + 1 && !mon.prOpen
      ensures mon.own == old(mon).own && Ends(r, r.Return? && !r.value)
      ensures mon.tally.repairs == old(mon).tally.repairs && mon.tally.accepted && mon.tally.served
      ensures r.Return? && !r.value ==> Tried(job, run, old(mon).tally.corrections + 1)
      ensures r.Return? && !r.value ==> Quietly(old(store.jobs[job.id]), store.jobs[job.id])
    {
      hide Inv, Valid, OpenedSince, RowOk;
      var result :- AwaitCorrection(job, run);
      ghost var waited := store.jobs[job.id];
      hide Quietly, Follows;
      r := TransitionFromResult(job, result);
      if r.Return? && !r.value {
        QuietlyCompose(old(store.jobs[job.id]), waited, store.jobs[job.id]);
        QuietlyKeeps(old(store.jobs[job.id]), store.jobs[job.id]);
      }
    }

    /** Resume the conversation and wait for it. */
    method AwaitCorrection(job: Job, run: string) returns (r: Step<TurnResult>)
      requires Working(job) && mon.begun > 0 && mon.tally.served && mon.tally.accepted && Carries(job)
      requires mon.course.last == Corrigible(true) && mon.tally.corrections < limits.corrections && mon.tally.run == run
      modifies store, this`log, this`mon, this`history
      ensures Working(job) && mon.begun == old(mon).begun && mon.turns <= old(mon).turns + 1 && mon.own == old(mon).own
      ensures mon.tally.repairs == old(mon).tally.repairs && mon.tally.accepted && mon.tally.served
      ensures mon.tally.named == old(mon).tally.named && mon.tally.run == run
      ensures Quietly(old(store.jobs[job.id]), store.jobs[job.id])
      ensures r.Raise? ==> Thrown(mon, r.exn)
      ensures r.Return? ==>
        mon.tally.corrections == old(mon).tally.corrections + 1 &&
        mon.course.last.Waited? && mon.course.last.result == r.value
    {
      hide Inv, Valid, OpenedSince, RowOk;
      var _ :- Ask<()>();
      var slot := ProviderSlot(job, job.routing.implementer);
      FollowsKeeps(old(store.jobs[job.id]), store.jobs[job.id]);
      QuietlyKeeps(old(store.jobs[job.id]), store.jobs[job.id]);
      hide Quietly, Follows;
      var _ :- slot;
      r := Correct(job, run);
      hide NamedIn;
    }

    method Correct(job: Job, run: string) returns (r: Step<TurnResult>)
      requires Working(job) && mon.begun > 0 && mon.tally.served && mon.tally.accepted && Carries(job)
      requires mon.course.last == Corrigible(true) && mon.tally.corrections < limits.corrections && mon.tally.run == run
      requires mon.read.slot == Some(job.routing.implementer)
      modifies store, this`log, this`mon, this`history
      ensures Working(job) && mon.begun == old(mon).begun && mon.turns <= old(mon).turns + 1 && mon.own == old(mon).own
      ensures mon.tally.repairs == old(mon).tally.repairs && mon.tally.accepted && mon.tally.served
      ensures mon.tally.named == old(mon).tally.named && mon.tally.run == run
      ensures Quietly(old(store.jobs[job.id]), store.jobs[job.id])
      ensures r.Raise? ==> Thrown(mon, r.exn)
      ensures r.Return? ==>
        mon.tally.corrections == old(mon).tally.corrections + 1 &&
        mon.course.last.Waited? && mon.course.last.result == r.value
    {
      hide Inv, Valid, OpenedSince, RowOk;
      LogTurn(Implementer, job.routing.implementer);
      hide MayTurn, Plays;
      var _ :- AskResume(run);
      r := AwaitResumed(job, run);
    }

    method AwaitResumed(job: Job, run: string) returns (r: Step<TurnResult>)
      requires Working(job) && mon.begun > 0 && mon.tally.corrections > 0 && Carries(job)
      requires mon.course.last == Started(Implementer, run)
      modifies store, this`log, this`mon, this`history
      ensures Working(job) && Steady(old(mon), mon) && mon.own == old(mon).own
      ensures Quietly(old(store.jobs[job.id]), store.jobs[job.id]) && (r.Raise? ==> Thrown(mon, r.exn))
      ensures r.Return? ==> mon.course.last.Waited? && mon.course.last.result == r.value
    {
      hide Inv, Valid, OpenedSince, RowOk;
      NamesItsRun(job, mon.tally.named);
      hide NamedIn;
      r := Wait(job, Implementer, job.routing.implementer, run, mon.tally.named);
      FollowsKeeps(old(store.jobs[job.id]), store.jobs[job.id]);
    }

    lemma QuietlyKeeps(j: Job, j': Job)
      requires Quietly(j, j')
      ensures j'.conversation == j.conversation && j'.prNumber == j.prNumber && j'.attempt == j.attempt
      ensures j.state == Running ==> j'.state == Running
    {
    }

    /** The row of a running job names its implementer's conversation. */
    lemma NamesItsRun(job: Job, named: string)
      requires Claimed(job) && store.jobs[job.id].conversation == Some(named)
      ensures NamedIn(store.View(), job.id, claim.routing.implementer, named)
      ensures job.routing == claim.routing
    {
    }

    // ---- publishing -------------------------------------------------------------------------------------------

    /** Commit what there is; false when the run stopped without changes. */
    method CommitWork(job: Job) returns (r: Step<bool>)
      requires Working(job) && mon.course.last.Round? && GoodWork(mon)
      modifies store, this`log, this`mon, this`history
      ensures Ready(job.id) && Steady(old(mon), mon) && mon.own == old(mon).own && Ends(r, r.Return? && r.value)
      ensures r.Return? && r.value ==> Working(job) && MayPublish(mon) && store.jobs == old(store.jobs)
    {
      hide Inv, Valid, OpenedSince, RowOk;
      var _ :- Verify();
      var dirty :- AskChanges();
      if dirty {
        LogCommitted();
        var _ :- Ask<()>();
      } else {
        var ahead :- AskAhead();
        if ahead == 0 {
            var _ :- Stop(job, Failed);
          return Return(false);
        }
      }
      return Return(true);
    }

    /** The branch is on GitHub as it is in the worktree. */
    predicate Sent(m: Monitor) {
      !m.prOpen && (m.course.last.Pushed? || m.course.last == Remote(true))
    }

    /** Commit and push unless the remote branch already matches; true when the run stopped without changes. */
    method PushFirst(job: Job, existing: Option<int>) returns (r: Step<bool>)
      requires Working(job) && mon.course.last.Round? && GoodWork(mon) && (existing.Some? ==> mon.own == existing)
      modifies store, this`log, this`mon, this`history
      ensures Ready(job.id) && Steady(old(mon), mon) && Ends(r, r.Return? && !r.value)
      ensures r.Return? && !r.value ==> Working(job) && Sent(mon)
    {
      hide Inv, Valid, OpenedSince, RowOk;
      var committed :- CommitWork(job);
      if !committed {
        return Return(true);
      }
      var matches :- AskRemote();
      var _ :- PushWork(job, matches, existing.Some? && existing == job.prNumber);
      return Return(false);
    }

    /** Renew, guard, and push unless the remote branch already matches. */
    method PushWork(job: Job, matches: bool, reworking: bool) returns (r: Step<()>)
      requires Working(job) && GoodWork(mon) && mon.course.last == Remote(matches)
      requires reworking ==> mon.own.Some? && mon.own == job.prNumber
      modifies store, this`log, this`mon, this`history
      ensures Working(job) && Steady(old(mon), mon)
      ensures if r.Raise? then Thrown(mon, r.exn) else Sent(mon)
    {
      hide Inv, Valid, OpenedSince, RowOk;
      var renewed := RequireLiveLease(job);
      FollowsKeeps(old(store.jobs[job.id]), store.jobs[job.id]);
      hide Follows, Quietly;
      var _ :- renewed;
      var _ :- GuardMutation(job, matches || reworking);
      if !matches {
        LogPushed(job.branch, true);
        var _ :- Ask<()>();
      }
      return Return(());
    }

    /** Edit the open pull request of the branch, or create a draft one and label it; its number. */
    method CreateDraftPr(job: Job) returns (r: Step<int>)
      requires Valid() && AboutClaim(job, claim) && mon.prep.level == 2 && mon.begun > 0 && Sent(mon)
      modifies this`log, this`mon
      ensures Valid() && Steady(old(mon), mon) && mon.course.decided == old(mon).course.decided
      ensures if r.Raise? then Thrown(mon, r.exn) else IsLabeled(mon.course.last) && mon.own == Some(r.value)
    {
      hide Inv, Valid, GuardVerdict;
      var _ :- GuardMutation(job, true);
      var existing :- LookUp(job.branch);
      if existing.Some? {
        LogPrWritten(job.branch, false);
        var _ :- Ask<()>();
        return Return(existing.value);
      }
      r := CreateNew(job);
    }

    /** Create the pull request, find its number, and label it after a live check. */
    method CreateNew(job: Job) returns (r: Step<int>)
      requires Valid() && AboutClaim(job, claim) && mon.prep.level == 3 && mon.prep.lookup == Some(None)
      requires mon.begun > 0 && Sent(mon)
      modifies this`log, this`mon
      ensures Valid() && Steady(old(mon), mon) && mon.course.decided == old(mon).course.decided
      ensures if r.Raise? then Thrown(mon, r.exn) else IsLabeled(mon.course.last) && mon.own == Some(r.value)
    {
      hide Inv, Valid;
      LogPrWritten(job.branch, true);
      var _ :- Ask<()>();
      var found :- LookUp(job.branch);
      if found.None? {
        r := Throw(KnownError, PrMissing);
        return;
      }
      var live :- AskIssue();
      if Lower(live.state) != "open" || "agent:paused" in live.labels || "agent:manual-only" in live.labels ||
         live.ContentHash() != job.snapshot.ContentHash()
      {
        r := Throw(StaleIssue, Unlabelable(live));
        return;
      }
      LogLabel(live);
      var _ :- Ask<()>();
      return Return(found.value);
    }

    /** Where the validation section of the pull request may be rewritten. */
    predicate MayUpdate(m: Monitor) {
      var l := m.course.last;
      if m.prOpen then l.Pushed? || l == Changes(false) else IsLabeled(l)
    }

    /** Rewrite the validation section of the open pull request. */
    method UpdatePrValidation(job: Job) returns (r: Step<()>)
      requires Valid() && AboutClaim(job, claim) && mon.prep.level == 2 && MayUpdate(mon)
      requires job.prNumber.Some? ==> job.prNumber == mon.own
      modifies this`log, this`mon
      ensures Valid() && Steady(old(mon), mon) && mon.own == old(mon).own
      ensures mon.course.decided == old(mon).course.decided
      ensures if r.Raise? then Thrown(mon, r.exn) else mon.course.last.EvidenceWritten?
    {
      hide Inv, Valid, GuardVerdict;
      if job.prNumber.None? {
        r := Throw(KnownError, NoNumber(job));
        return;
      }
      var openOnBranch :- Ask<bool>();
      if !openOnBranch {
        r := Throw(StaleIssue, PrClosed);
        return;
      }
      var body :- AskBody();
      var validation: string := *;
      var updated := Evidence.Update(body, validation);
      hide Evidence.Bounds;
      if updated.None? {
        r := Throw(KnownError, NoSection(body));
        return;
      }
      hide Evidence.Update;
      var _ :- GuardMutation(job, true);
      LogEvidence(job.prNumber.value, body, validation, updated.value);
      var _ :- Ask<()>();
      return Return(());
    }

    /** The draft pull request and its evidence, up to the recorded PR_OPEN that keeps the lease. */
    method OpenPr(job: Job) returns (r: Step<Job>)
      requires Working(job) && mon.begun > 0 && mon.tally.served && Sent(mon)
      modifies store, this`log, this`mon, this`history
      ensures Ready(job.id) && mon.tally == old(mon).tally.(served := mon.tally.served)
      ensures mon.turns == old(mon).turns && mon.begun == old(mon).begun
      ensures r.Raise? ==> Thrown(mon, r.exn)
      ensures r.Return? ==>
        r.value.id == job.id && InReview(r.value) && Held(store.jobs[job.id]) &&
        mon.course.last == Recorded(PrOpen, true)
    {
      hide Inv, Valid, OpenedSince, RowOk;
      var job' := Patch(job, NO_PATCH.(phase := Some("pull-request")));
      ghost var first := job';
      FollowsKeeps(old(store.jobs[job.id]), job');
      var leased := RequireLiveLease(job');
      FollowsKeeps(first, store.jobs[job.id]);
      hide Quietly;
      var _ :- leased;
      var number :- CreateDraftPr(job');
      ghost var second := store.jobs[job.id];
      job' := Patch(job', NO_PATCH.(prNumber := Some(number)));
      FollowsKeeps(second, job');
      r := PublishEvidence(job');
    }

    method PublishEvidence(job: Job) returns (r: Step<Job>)
      requires Working(job) && IsLabeled(mon.course.last) && mon.tally.served
      requires store.jobs[job.id].prNumber.Some? && store.jobs[job.id].prNumber == mon.own
      modifies store, this`log, this`mon, this`history
      ensures Ready(job.id) && mon.tally == old(mon).tally.(served := mon.tally.served)
      ensures mon.turns == old(mon).turns && mon.begun == old(mon).begun
      ensures r.Raise? ==> Thrown(mon, r.exn)
      ensures r.Return? ==>
        r.value.id == job.id && InReview(r.value) && Held(store.jobs[job.id]) &&
        mon.course.last == Recorded(PrOpen, true)
    {
      hide Inv, Valid, MoveAllowed, OpenedSince, RowOk;
      var job' :- WriteEvidence(job);
      Served(job');
      hide Sane, KeepsOpen;
      var open :- Move(job', PrOpen, None, Some(false));
      var _ :- Ask<()>();
      return Return(open);
    }

    /** Once an attempt was counted no retry request is left. */
    lemma Served(job: Job)
      requires Claimed(job) && mon.tally.served
      ensures !store.jobs[job.id].retry && mon.course.decided.None?
    {
      hide Inv, Valid, EventsOk;
    }

    /** Note the CI result and rewrite the evidence of the pull request. */
    method WriteEvidence(job: Job) returns (r: Step<Job>)
      requires Working(job) && IsLabeled(mon.course.last)
      requires store.jobs[job.id].prNumber.Some? && store.jobs[job.id].prNumber == mon.own
      modifies store, this`log, this`mon, this`history
      ensures Working(job) && Steady(old(mon), mon) && mon.own == old(mon).own && (r.Raise? ==> Thrown(mon, r.exn))
      ensures r.Return? ==>
        Working(r.value) && r.value.id == job.id && r.value.prNumber == store.jobs[job.id].prNumber == mon.own &&
        mon.course.last.EvidenceWritten?
    {
      hide Inv, Valid, MoveAllowed, OpenedSince, RowOk;
      var ci :- Ask<string>();
      var job' := Patch(job, NO_PATCH.(validation := Some(Evidence.WithCi(job.validation, ci))));
      FollowsKeeps(old(store.jobs[job.id]), job');
      hide Follows;
      var _ :- Ask<()>();
      r := UpdateEvidence(job');
    }

    method UpdateEvidence(job: Job) returns (r: Step<Job>)
      requires Working(job) && IsLabeled(mon.course.last) && job.prNumber == store.jobs[job.id].prNumber == mon.own
      modifies store, this`log, this`mon, this`history
      ensures Working(job) && Steady(old(mon), mon) && mon.own == old(mon).own
      ensures store.jobs[job.id].prNumber == mon.own
      ensures if r.Raise? then Thrown(mon, r.exn) else r.value == job && mon.course.last.EvidenceWritten?
    {
      hide Inv, Valid, MoveAllowed, OpenedSince, RowOk;
      var leased := RequireLiveLease(job);
      FollowsKeeps(old(store.jobs[job.id]), store.jobs[job.id]);
      QuietlyKeeps(old(store.jobs[job.id]), store.jobs[job.id]);
      hide Quietly, Follows;
      var _ :- leased;
      var _ :- UpdatePrValidation(job);
      return Return(job);
    }

    // ---- review -----------------------------------------------------------------------------------------------

    /** The recorded pull request is in the worker's hands: the row and the worker's copy carry the number that was
        found on the branch. */
    ghost predicate InReview(job: Job)
      reads this, store
    {
      && Ready(job.id) && AboutClaim(job, claim) && mon.prOpen && mon.matched && mon.tally.served
      && mon.course.decided.None? && mon.own.Some? && store.jobs[job.id].prNumber == mon.own == job.prNumber
    }

    /** As long as the row holds its lease it is under review. */
    predicate UnderReview(j: Job) {
      Held(j) ==> j.state == Reviewing
    }

    lemma StaysUnderReview(j: Job, j': Job)
      requires Follows(j, j') && UnderReview(j)
      ensures UnderReview(j')
    {
    }

    /** Leave the pull request open and release the lease. */
    method EndReview(job: Job) returns (r: Step<()>)
      requires InReview(job) && LeavesOpen(mon, Claim())
      modifies store, this`log, this`mon, this`history
      ensures Ready(job.id) && mon.prOpen && Steady(old(mon), mon) && Ends(r, false)
    {
      hide Inv, Valid, MoveAllowed, LeavesOpen, OpenedSince;
      var _ :- Move(job, PrOpen, None, Some(true));
      return Return(());
    }

    /** Renewal, guard, and the move to REVIEWING that keeps the lease and says that the reviewer is at work. */
    method StartReview(job: Job) returns (r: Step<Job>)
      requires InReview(job) && StartsReview(mon)
      modifies store, this`log, this`mon, this`history
      ensures Ready(job.id) && mon.prOpen && Steady(old(mon), mon) && mon.own == old(mon).own
      ensures r.Raise? ==> Thrown(mon, r.exn)
      ensures r.Return? ==> r.value.id == job.id && InReview(r.value) && mon.course.last == Recorded(Reviewing, true)
      ensures r.Return? ==>
        UnderReview(store.jobs[job.id]) && store.jobs[job.id].state == Reviewing &&
        store.jobs[job.id].phase == "independent-review"
    {
      hide Inv, Valid, MoveAllowed, OpenedSince;
      var leased := RequireLiveLease(job);
      FollowsKeeps(old(store.jobs[job.id]), store.jobs[job.id]);
      hide Follows;
      var _ :- leased;
      var _ :- GuardMutation(job, true);
      var job' :- Move(job, Reviewing, Some("independent-review"), Some(false));
      var _ :- Ask<()>();
      return Return(job');
    }

    /** One reviewer turn and its posted review; the number of findings, or `None` when the review ended. */
    method ReviewTurn(job: Job, reviewer: string) returns (r: Step<Option<int>>)
      requires InReview(job) && StartsReview(mon) && job.routing.reviewer == Some(reviewer)
      modifies store, this`log, this`mon, this`history
      ensures Ready(job.id) && mon.prOpen && mon.begun == old(mon).begun && mon.turns <= old(mon).turns + 1
      ensures mon.tally == old(mon).tally.(findings := mon.tally.findings) && Ends(r, r.Return? && r.value.Some?)
      ensures r.Return? && r.value.Some? ==>
        InReview(job) && UnderReview(store.jobs[job.id]) && mon.course.last.ReviewPosted? &&
        mon.tally.findings.Some? && (r.value.value != 0 <==> HasFindings(mon.tally.findings.value))
    {
      hide Inv, Valid, OpenedSince, RowOk;
      var job' :- StartReview(job);
      hide StartsReview, UnderReview;
      var result :- AwaitReview(job', reviewer);
      r := UseReview(job', result);
    }

    /** Post a complete review, or end. */
    method UseReview(job: Job, result: TurnResult) returns (r: Step<Option<int>>)
      requires InReview(job) && UnderReview(store.jobs[job.id])
      requires mon.course.last.Waited? && mon.course.last.role.Reviewer? && mon.course.last.result == result
      requires mon.tally.findings == result.findings
      modifies store, this`log, this`mon, this`history
      ensures Ready(job.id) && mon.prOpen && Steady(old(mon), mon) && Ends(r, r.Return? && r.value.Some?)
      ensures r.Return? && r.value.Some? ==>
        InReview(job) && UnderReview(store.jobs[job.id]) && mon.course.last.ReviewPosted? &&
        mon.tally.findings.Some? && (r.value.value != 0 <==> HasFindings(mon.tally.findings.value))
    {
      hide Inv, Valid, OpenedSince, RowOk;
      if result.outcome != WorkCompleted || result.findings.None? {
        var _ :- EndReview(job);
        return Return(None);
      }
      ghost var row := store.jobs[job.id];
      var posted := PostReview(job);
      StillUnderReview(row, store.jobs[job.id]);
      hide Quietly, UnderReview;
      var _ :- posted;
      return Return(Some(EffectiveFindings(result.findings.value)));
    }

    /** The reviewer's turn; its conversation is in the row while the worker waits. */
    method AwaitReview(job: Job, reviewer: string) returns (r: Step<TurnResult>)
      requires InReview(job) && job.routing.reviewer == Some(reviewer) && mon.course.last == Recorded(Reviewing, true)
      requires store.jobs[job.id].state == Reviewing && store.jobs[job.id].phase == "independent-review"
      modifies store, this`log, this`mon, this`history
      ensures InReview(job) && UnderReview(store.jobs[job.id])
      ensures mon.begun == old(mon).begun && mon.turns <= old(mon).turns + 1
      ensures mon.tally == old(mon).tally.(findings := mon.tally.findings)
      ensures r.Raise? ==> Thrown(mon, r.exn)
      ensures r.Return? ==>
        mon.course.last.Waited? && mon.course.last.role.Reviewer? && mon.course.last.result == r.value &&
        mon.tally.findings == r.value.findings
    {
      hide Inv, Valid, OpenedSince, RowOk;
      var _ :- ProviderSlot(job, reviewer);
      ghost var slot := store.jobs[job.id];
      LogTurn(Reviewer, reviewer);
      var run :- AskStart(Reviewer);
      var job' := Patch(job, NO_PATCH.(reviewConversation := Some(run)));
      ReviewerNamed(old(store.jobs[job.id]), slot, job', reviewer, run);
      ghost var patched := job';
      hide Follows;
      r := Wait(job', Reviewer, reviewer, run, run);
      StillUnderReview(patched, store.jobs[job.id]);
    }

    lemma StillUnderReview(j: Job, j': Job)
      requires Quietly(j, j') && UnderReview(j)
      ensures UnderReview(j') && j'.prNumber == j.prNumber
    {
    }

    /** A row that stays under review names the reviewer's conversation once it is stored. */
    lemma ReviewerNamed(j: Job, slot: Job, j': Job, reviewer: string, run: string)
      requires j.state == Reviewing && j.phase == "independent-review" && j.routing.reviewer == Some(reviewer)
      requires Quietly(j, slot) && Follows(slot, j')
      requires Patches(slot, j', NO_PATCH.(reviewConversation := Some(run)))
      ensures UnderReview(j') && UnderReview(slot) && j'.prNumber == j.prNumber && slot.prNumber == j.prNumber
      ensures Held(j') ==> j'.state in ACTIVE && NamesRun(j', reviewer, run)
    {
    }

    method PostReview(job: Job) returns (r: Step<()>)
      requires InReview(job) && mon.course.last.Waited? && mon.course.last.role.Reviewer? && Complete(mon.course.last)
      modifies store, this`log, this`mon, this`history
      ensures InReview(job) && Steady(old(mon), mon) && mon.own == old(mon).own
      ensures Quietly(old(store.jobs[job.id]), store.jobs[job.id])
      ensures if r.Raise? then Thrown(mon, r.exn) else mon.course.last.ReviewPosted?
    {
      hide Inv, Valid, OpenedSince, RowOk;
      var leased := RequireLiveLease(job);
      FollowsKeeps(old(store.jobs[job.id]), store.jobs[job.id]);
      QuietlyKeeps(old(store.jobs[job.id]), store.jobs[job.id]);
      hide Quietly, Follows;
      var _ :- leased;
      var _ :- GuardMutation(job, true);
      LogReview(job.prNumber.value);
      r := Ask<()>();
    }

    /** One repair turn, validated and pushed; true when the review ended. */
    method RepairTurn(job: Job) returns (r: Step<bool>)
      requires InReview(job) && UnderReview(store.jobs[job.id])
      requires mon.course.last.ReviewPosted? && AsksForRepair(mon, Claim())
      modifies store, this`log, this`mon, this`history
      ensures Ready(job.id) && mon.prOpen && mon.begun == old(mon).begun && mon.turns <= old(mon).turns + 1
      ensures mon.tally.accepted == old(mon).tally.accepted && Ends(r, r.Return? && !r.value)
      ensures r.Return? && !r.value ==>
        InReview(job) && StartsReview(mon) && mon.tally.repairs == old(mon).tally.repairs + 1
    {
      hide Inv, Valid, OpenedSince, GuardVerdict, RowOk;
      var _ :- GuardMutation(job, true);
      var health :- AskHealth(Implementer);
      if !health.authenticated || !health.healthy || health.limited {
        var _ :- EndReview(job);
        return Return(true);
      }
      var result :- AwaitRepair(job);
      if result.outcome != WorkCompleted {
        var _ :- EndReview(job);
        return Return(true);
      }
      r := FinishRepair(job);
    }

    /** The implementer's turn; its conversation is in the row while the worker waits. */
    method AwaitRepair(job: Job) returns (r: Step<TurnResult>)
      requires InReview(job) && UnderReview(store.jobs[job.id]) && MayTurn(mon, Implementer, Claim())
      modifies store, this`log, this`mon, this`history
      ensures InReview(job) && mon.begun == old(mon).begun && mon.turns <= old(mon).turns + 1
      ensures mon.tally.accepted == old(mon).tally.accepted
      ensures r.Raise? ==> Thrown(mon, r.exn)
      ensures r.Return? ==>
        mon.course.last.Waited? && mon.course.last.role.Implementer? && mon.course.last.result == r.value &&
        mon.tally == old(mon).tally.(repairs := old(mon).tally.repairs + 1)
    {
      hide Inv, Valid, OpenedSince, RowOk;
      var slot := ProviderSlot(job, job.routing.implementer);
      StillUnderReview(old(store.jobs[job.id]), store.jobs[job.id]);
      hide Quietly, UnderReview;
      var _ :- slot;
      r := RunRepair(job);
    }

    method RunRepair(job: Job) returns (r: Step<TurnResult>)
      requires InReview(job) && UnderReview(store.jobs[job.id]) && MayTurn(mon, Implementer, Claim())
      requires mon.read.slot == Some(job.routing.implementer)
      modifies store, this`log, this`mon, this`history
      ensures InReview(job) && mon.begun == old(mon).begun && mon.turns <= old(mon).turns + 1
      ensures mon.tally.accepted == old(mon).tally.accepted
      ensures r.Raise? ==> Thrown(mon, r.exn)
      ensures r.Return? ==>
        mon.course.last.Waited? && mon.course.last.role.Implementer? && mon.course.last.result == r.value &&
        mon.tally == old(mon).tally.(repairs := old(mon).tally.repairs + 1)
    {
      hide Inv, Valid, OpenedSince, RowOk;
      LogTurn(Implementer, job.routing.implementer);
      hide MayTurn;
      var run :- AskStart(Implementer);
      var job' := Patch(job, NO_PATCH.(conversation := Some(run), phase := Some("review-repair")));
      RepairNamed(old(store.jobs[job.id]), job', run);
      hide Follows, Patches;
      r := Wait(job', Implementer, job.routing.implementer, run, run);
      StillUnderReview(job', store.jobs[job.id]);
    }

    /** A row under review names the repair's conversation once it is stored with its phase. */
    lemma RepairNamed(j: Job, j': Job, run: string)
      requires UnderReview(j) && Follows(j, j')
      requires Patches(j, j', NO_PATCH.(conversation := Some(run), phase := Some("review-repair")))
      ensures UnderReview(j') && j'.prNumber == j.prNumber
      ensures Held(j') ==> j'.state in ACTIVE && NamesRun(j', j.routing.implementer, run)
    {
    }

    /** Validate a repair and push it; true when the review ended. */
    method FinishRepair(job: Job) returns (r: Step<bool>)
      requires InReview(job) && MayValidate(mon)
      modifies store, this`log, this`mon, this`history
      ensures Ready(job.id) && mon.prOpen && mon.begun == old(mon).begun && mon.turns == old(mon).turns
      ensures mon.tally == old(mon).tally.(ran := mon.tally.ran) && Ends(r, r.Return? && !r.value)
      ensures r.Return? && !r.value ==> InReview(job) && StartsReview(mon)
    {
      hide Inv, Valid, OpenedSince, RowOk;
      var ok :- RunValidations();
      if !ok {
        var _ :- EndReview(job);
        return Return(true);
      }
      var _ :- PushRepair(job);
      return Return(false);
    }

    method PushRepair(job: Job) returns (r: Step<()>)
      requires InReview(job) && mon.course.last.Round? && mon.work.validated
      modifies store, this`log, this`mon, this`history
      ensures InReview(job) && Steady(old(mon), mon)
      ensures if r.Raise? then Thrown(mon, r.exn) else StartsReview(mon)
    {
      hide Inv, Valid, OpenedSince, RowOk;
      var dirty :- AskChanges();
      if dirty {
        var _ :- PushChanges(job);
      }
      r := PublishRepair(job);
    }

    /** The evidence of a repair. */
    method PublishRepair(job: Job) returns (r: Step<()>)
      requires InReview(job) && MayUpdate(mon)
      modifies store, this`log, this`mon, this`history
      ensures InReview(job) && Steady(old(mon), mon)
      ensures if r.Raise? then Thrown(mon, r.exn) else StartsReview(mon)
    {
      hide Inv, Valid, OpenedSince, RowOk;
      var ci :- Ask<string>();
      var summary: string := *;
      var job' := Patch(job, NO_PATCH.(validation := Some(Evidence.WithCi(summary, ci))));
      hide Follows;
      var leased := RequireLiveLease(job');
      QuietlyKeeps(job', store.jobs[job.id]);
      hide Quietly;
      var _ :- leased;
      var _ :- UpdatePrValidation(job');
      r := Ask<()>();
    }

    method PushChanges(job: Job) returns (r: Step<()>)
      requires InReview(job) && mon.work.validated && mon.course.last == Changes(true)
      modifies store, this`log, this`mon, this`history
      ensures InReview(job) && Steady(old(mon), mon)
      ensures if r.Raise? then Thrown(mon, r.exn) else MayUpdate(mon)
    {
      hide Inv, Valid, OpenedSince, RowOk;
      var _ :- Verify();
      LogCommitted();
      var _ :- Ask<()>();
      var leased := RequireLiveLease(job);
      QuietlyKeeps(old(store.jobs[job.id]), store.jobs[job.id]);
      hide Quietly;
      var _ :- leased;
      var _ :- GuardMutation(job, true);
      LogPushed(job.branch, false);
      r := Ask<()>();
    }

    /** Review and repair until there are no findings or the configured number of repairs was made; the pull request
        stays open in every case. */
    method Review(job: Job) returns (r: Step<()>)
      requires InReview(job) && MayAssess(mon, Reviewer, Claim()) && mon.tally.repairs == 0
      modifies store, this`log, this`mon, this`history
      ensures Ready(job.id) && mon.prOpen && mon.begun == old(mon).begun && Ends(r, false)
      ensures mon.turns <= old(mon).turns + 2 * limits.repairs + 1 && mon.tally.accepted == old(mon).tally.accepted
    {
      hide Inv, Valid, RowOk, OpenedSince;
      var health :- AskReviewer(job);
      if health.None? || !health.value.authenticated || !health.value.healthy || health.value.limited {
        r := EndReview(job);
        return;
      }
      var repairs := 0;
      while true
        invariant InReview(job) && StartsReview(mon) && repairs == mon.tally.repairs <= limits.repairs
        invariant mon.begun == old(mon).begun && mon.turns <= old(mon).turns + 2 * repairs
        invariant mon.tally.accepted == old(mon).tally.accepted
        decreases limits.repairs - repairs
      {
        var findings :- ReviewTurn(job, job.routing.reviewer.value);
        if findings.None? {
          return Return(());
        }
        if findings.value == 0 || repairs >= limits.repairs {
          r := EndReview(job);
          return;
        }
        repairs := repairs + 1;
        var ended :- RepairTurn(job);
        if ended {
          return Return(());
        }
      }
    }

    // ---- the whole run ----------------------------------------------------------------------------------------

    /** The guarded part of a run: everything the exception handlers cover. The current copy of the row and whether
        the provider accepted a turn are known also when an exception escapes. */
    method RunBody(claimed: Job) returns (r: Step<()>, job: Job, accepted: bool)
      requires Claimed(claimed) && mon == FRESH
      modifies store, this`log, this`mon, this`history
      ensures Ready(claimed.id) && Knows(claimed, job, accepted) && Ends(r, false)
      ensures mon.turns <= limits.corrections + 2 * limits.repairs + 2
      ensures mon.begun <= 1 && (mon.begun == 1 ==> claimed.attempt < limits.attempts)
    {
      hide Inv, Valid, RowOk, OpenedSince;
      job, accepted := claimed, false;
      var found :- Preflight(job);
      if found.None? {
        return Return(()), job, accepted;
      }
      if found.value.Some? {
        var adopted :- AdoptPr(job, found.value.value);
        if adopted.None? {
          return Return(()), job, accepted;
        }
        job := adopted.value;
      }
      r, job, accepted := RunOn(job, found.value);
    }

    /** From the provider's health on. */
    method RunOn(claimed: Job, existing: Option<int>) returns (r: Step<()>, job: Job, accepted: bool)
      requires Untried(claimed) && MayAssess(mon, Implementer, Claim()) && mon.tally.repairs == 0
      requires existing.Some? ==> mon.own == existing
      modifies store, this`log, this`mon, this`history
      ensures Ready(claimed.id) && Knows(claimed, job, accepted) && Ends(r, false)
      ensures mon.turns <= limits.corrections + 2 * limits.repairs + 2
      ensures mon.begun <= 1 && (mon.begun == 1 ==> claimed.attempt < limits.attempts)
    {
      hide Inv, Valid, RowOk, OpenedSince, MayAssess;
      job, accepted := claimed, false;
      var able :- CheckProvider(job);
      if !able {
        return Return(()), job, accepted;
      }
      var prepared :- Prepare(job);
      if prepared.None? {
        return Return(()), job, accepted;
      }
      r, job, accepted := Implement(prepared.value, existing);
    }

    /** What the handlers know of the run. */
    ghost predicate Knows(claimed: Job, job: Job, accepted: bool)
      reads this
    {
      job.id == claimed.id && AboutClaim(job, claim) && job.attempt == claim.attempt + mon.begun &&
      (accepted <==> mon.tally.accepted)
    }

    /** From the first turn to the end of the review. */
    method Implement(claimed: Job, existing: Option<int>) returns (r: Step<()>, job: Job, accepted: bool)
      requires Untried(claimed) && mon.course.last == SetUp(true) && mon.tree.intact && mon.tally.repairs == 0
      requires (existing.Some? ==> mon.own == existing)
      modifies store, this`log, this`mon, this`history
      ensures Ready(claimed.id) && Knows(claimed, job, accepted) && Ends(r, false)
      ensures mon.turns <= limits.corrections + 2 * limits.repairs + 2 && mon.begun <= 1
    {
      hide Inv, Valid, RowOk, OpenedSince;
      var run;
      run, job, accepted := FirstTurn(claimed);
      if run.Raise? {
        return Raise(run.exn), job, accepted;
      }
      if run.value.None? {
        return Return(()), job, accepted;
      }
      var corrected :- Corrections(job, run.value.value);
      if corrected.None? {
        return Return(()), job, accepted;
      }
      job := corrected.value;
      r := PublishAndReview(job, existing);
    }

    method PublishAndReview(job: Job, existing: Option<int>) returns (r: Step<()>)
      requires Working(job) && mon.course.last.Round? && GoodWork(mon) && mon.begun > 0 && mon.tally.repairs == 0
      requires mon.tally.served
      requires (existing.Some? ==> mon.own == existing)
      modifies store, this`log, this`mon, this`history
      ensures Ready(job.id) && mon.begun == old(mon).begun && mon.tally.accepted == old(mon).tally.accepted
      ensures mon.turns <= old(mon).turns + 2 * limits.repairs + 1 && Ends(r, false)
    {
      hide Inv, Valid, RowOk, OpenedSince;
      var stopped :- PushFirst(job, existing);
      if stopped {
        return Return(());
      }
      var open :- OpenPr(job);
      r := ReviewOrEnd(open);
    }

    method ReviewOrEnd(open: Job) returns (r: Step<()>)
      requires InReview(open) && mon.course.last == Recorded(PrOpen, true) && mon.tally.repairs == 0
      modifies store, this`log, this`mon, this`history
      ensures Ready(open.id) && mon.begun == old(mon).begun && mon.tally.accepted == old(mon).tally.accepted
      ensures mon.turns <= old(mon).turns + 2 * limits.repairs + 1 && Ends(r, false)
    {
      hide Inv, Valid, RowOk, OpenedSince;
      if open.routing.reviewRequired {
        var _ :- Review(open);
      } else {
        var _ :- EndReview(open);
      }
      r := Finish(open);
    }

    /** Read the row for a handler and, after a provider failure, ask for a limited provider. */
    method Catch(job: Job, exn: Exn) returns (current: Job, limited: Option<string>)
      requires Ready(job.id) && Thrown(mon, exn)
      modifies store, this`log, this`mon, this`history
      ensures Ready(job.id) && current == store.jobs[job.id] && (limited.Some? ==> exn == ProviderError)
      ensures mon.course.last.Caught? && mon.course.last.exn == exn && mon.course.last.row == current
      ensures mon.course.last.limited == limited && Steady(old(mon), mon)
      ensures mon.course.decided == old(mon).course.decided
    {
      hide Inv, Valid, RowOk, OpenedSince;
      Others(job.id);
      hide Quietly;
      current := store.jobs[job.id];
      limited := None;
      if exn == ProviderError {
        limited := *;
      }
      LogCaught(job.id, exn, limited);
    }

    /** What a handler makes of an exception: a move, or nothing when the row is already out of the run. */
    method Handle(job: Job, accepted: bool, exn: Exn) returns (r: Step<()>)
      requires Ready(job.id) && Thrown(mon, exn) && Knows(claim, job, accepted)
      modifies store, this`log, this`mon, this`history
      ensures Finished(job.id) && mon.turns == old(mon).turns && mon.begun == old(mon).begun
      ensures if r.Raise? then Thrown(mon, r.exn) else Over(mon) || mon.course.last.Caught?
    {
      hide Inv, Valid, OpenedSince;
      var current, limited := Catch(job, exn);
      RowHeldOrFree(job.id);
      var open := current.prNumber.Some? && current.state in {PrOpen, Reviewing};
      match exn {
        case StaleIssue =>
          r := Settle(job, if current.prNumber.Some? then PrOpen else NeedsGuidance);
        case ProviderError =>
          r := HandleProvider(job, accepted, current, limited);
        case KnownError =>
          if open {
            r := Settle(job, PrOpen);
          } else if current.state == Running {
            r := Settle(job, Failed);
          } else {
            IdleIsSettled(current);
            r := Finish(job);
          }
        case Unexpected =>
          r := Settle(job, if open then PrOpen else Failed);
      }
    }

    method HandleProvider(job: Job, accepted: bool, current: Job, limited: Option<string>) returns (r: Step<()>)
      requires Ready(job.id) && Knows(claim, job, accepted) && current == store.jobs[job.id]
      requires mon.course.last.Caught? && mon.course.last.exn == ProviderError && mon.course.last.row == current
      requires mon.course.last.limited == limited
      modifies store, this`log, this`mon, this`history
      ensures Finished(job.id) && mon.turns == old(mon).turns && mon.begun == old(mon).begun
      ensures if r.Raise? then Thrown(mon, r.exn) else Over(mon)
    {
      hide Inv, Valid, OpenedSince;
      var open := current.prNumber.Some? && current.state in {PrOpen, Reviewing};
      if limited.Some? {
        r := HandleLimit(job, current, limited.value);
      } else if open {
        r := Settle(job, PrOpen);
      } else if !accepted {
        r := Settle(job, NeedsGuidance);
      } else if job.attempt < limits.attempts {
        Backoff(job.routing.implementer);
        r := Settle(job, Queued);
      } else {
        r := Settle(job, Failed);
      }
    }

    /** Some provider is limited: wait for it, or leave the pull request open. */
    method HandleLimit(job: Job, current: Job, limited: string) returns (r: Step<()>)
      requires Ready(job.id) && current == store.jobs[job.id]
      requires mon.course.last.Caught? && mon.course.last.exn == ProviderError && mon.course.last.row == current
      requires mon.course.last.limited == Some(limited)
      modifies store, this`log, this`mon, this`history
      ensures Finished(job.id) && mon.turns == old(mon).turns && mon.begun == old(mon).begun
      ensures if r.Raise? then Thrown(mon, r.exn) else Over(mon)
    {
      hide Inv, Valid, OpenedSince;
      Backoff(limited);
      r := Settle(job, if current.prNumber.Some? then PrOpen else Queued);
    }

    lemma RowHeldOrFree(id: JobId)
      requires Ready(id)
      ensures var j := store.jobs[id]; (Held(j) || Free(j)) && (Held(j) ==> j.state in HOLDERS)
      ensures store.jobs[id].state == Running ==> Held(store.jobs[id])
    {
    }

    /** When the tables refuse the move a handler asks for, the row is already settled. */
    lemma RefusedSettles(id: JobId, to: JobState)
      requires Ready(id) && !MoveAllowed(store.jobs[id].state, to) && to in {PrOpen, NeedsGuidance, Queued, Failed}
      requires to in {NeedsGuidance, Failed} ==> !HasOpenPr(store.jobs[id])
      ensures Settled(store.jobs[id])
    {
    }

    /** A handler's move and `Finish`; a refused move escapes, but only from a settled row. */
    method Settle(job: Job, to: JobState) returns (r: Step<()>)
      requires Ready(job.id) && to in {PrOpen, NeedsGuidance, Queued, Failed} && Leads(mon, to, false, Claim())
      requires to == PrOpen ==> store.jobs[job.id].prNumber.Some?
      requires to in {NeedsGuidance, Failed} ==> !HasOpenPr(store.jobs[job.id])
      requires MayMove(mon.prOpen, store.jobs[job.id], to)
      modifies store, this`log, this`mon, this`history
      ensures Finished(job.id) && mon.turns == old(mon).turns && mon.begun == old(mon).begun
      ensures if r.Raise? then Thrown(mon, r.exn) else Over(mon)
    {
      hide Inv, Valid, OpenedSince, Sane, KeepsOpen, Leads, Stands;
      var moved := Move(job, to, None, if to == PrOpen then Some(true) else None);
      if moved.Raise? {
        RefusedSettles(job.id, to);
        return Raise(moved.exn);
      }
      r := Finish(job);
    }

    /** The body of the run and its handlers. */
    method RunGuarded(claimed: Job) returns (r: Step<()>)
      requires Claimed(claimed) && mon == FRESH && claimed == claim
      modifies store, this`log, this`mon, this`history
      ensures Finished(claimed.id) && mon.turns <= limits.corrections + 2 * limits.repairs + 2
      ensures mon.begun <= 1 && (mon.begun == 1 ==> claimed.attempt < limits.attempts)
      ensures if r.Raise? then Thrown(mon, r.exn) else Over(mon) || mon.course.last.Caught?
    {
      hide Inv, Valid, OpenedSince, RowOk;
      var job, accepted;
      r, job, accepted := RunBody(claimed);
      if r.Raise? {
        r := Handle(job, accepted, r.exn);
      }
    }

    /** One run of a claimed job, for every choice of answers and exceptions of the outside. Whether it returns or
        raises, the row has left the active states and holds no lease, and still carries the claim; it stands where
        the trace says the run decided; once the event log records a transition to PR_OPEN it stays open, unless it was
        merged or canceled; the row's counter went up by the attempts of the trace, at most one, and a retry request
        that was served is gone; the number of turns is bounded; the trace obeys the rules; and the history of the
        tables leads from the claim to the end and backs the trace. */
    method RunClaimed(claimed: Job) returns (r: Step<()>)
      requires Inv(store.View()) && claimed.id in store.jobs && store.jobs[claimed.id] == claimed
      requires claimed.state == Running
      modifies store, this`log, this`mon, this`history, this`claim, this`start
      ensures Inv(store.View()) && claimed.id in store.jobs && Settled(store.jobs[claimed.id])
      ensures AboutClaim(store.jobs[claimed.id], claimed) && old(store.events) <= store.events
      ensures OpenedSince(store.events, |old(store.events)|, claimed.id) ==> HasOpenings(log)
      ensures HasOpenings(log) ==>
        store.jobs[claimed.id].state in {PrOpen, Done} || store.jobs[claimed.id].cancel
      ensures Good(log, Rules(claimed, scopeKey, leaseSeconds, limits))
      ensures Backed(log, Rules(claimed, scopeKey, leaseSeconds, limits), history)
      ensures IsPast(history, claimed.id) && history.views[0] == old(store.View())
      ensures history.views[|history.txs|] == store.View()
      ensures Turns(log) <= limits.corrections + 2 * limits.repairs + 2
      ensures store.jobs[claimed.id].attempt == claimed.attempt + Begun(log)
      ensures Begun(log) <= 1 && (Begun(log) == 1 ==> claimed.attempt < limits.attempts)
      ensures Begun(log) == 1 ==> !store.jobs[claimed.id].retry
      ensures Stands(store.jobs[claimed.id], Standing(Begun(log), HasOpenings(log), false, Observe(log).course.decided))
      ensures HasOpenings(log) || Observe(log).course.decided.Some?
      ensures r.Return? ==> Over(Observe(log)) || Observe(log).course.last.Caught?
    {
      log, mon, claim, start, history := [], FRESH, claimed, store.View(), Past([store.View()], []);
      ClaimedIsReady(claimed);
      r := RunGuarded(claimed);
      RowAtEnd(claimed.id);
      hide RowOk, Stands, HasOpenings, Inv, Good, Backed, IsPast;
      TurnsObserved(log);
      BegunObserved(log);
      PrOpenObserved(log);
      ServedObserved(log);
      hide Observe;
    }

    /** What the row shows at the end of a run. */
    lemma RowAtEnd(id: JobId)
      requires Finished(id)
      ensures var j := store.jobs[id];
        && AboutClaim(j, claim) && j.attempt == claim.attempt + mon.begun && (mon.tally.served ==> !j.retry)
        && (mon.prOpen ==> j.state in {PrOpen, Done} || j.cancel)
        && Stands(j, Standing(mon.begun, mon.prOpen, false, mon.course.decided))
        && (mon.prOpen || mon.course.decided.Some?)
    {
      hide Inv, Valid, EventsOk;
    }

    lemma ClaimedIsReady(claimed: Job)
      requires log == [] && mon == FRESH && claim == claimed && start == store.View()
      requires history == Past([store.View()], [])
      requires Inv(store.View()) && claimed.id in store.jobs && store.jobs[claimed.id] == claimed
      requires claimed.state == Running
      ensures Claimed(claimed)
    {
    }
  }
}

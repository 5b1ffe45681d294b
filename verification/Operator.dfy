/** Intake of a live issue and operator commands: several store calls each, with other processes acting between
    them. What the calls promise together holds when nobody interferes (`solo`); the tables stay consistent in any
    case. */
module Operator {
  import opened Types
  import opened Text
  import opened Intake
  import opened GitHub
  import opened StoreSpec
  import opened StoreActions
  import opened StoreInvariant
  import opened StoreSteps
  import opened ClaimedRow
  import opened JobStore

  /** The states in which work may go on or start by itself. */
  predicate Workable(j: Job) {
    j.state in {Queued, Running, Reviewing}
  }

  /** The row carries the specification, the routing and the concurrency scope of this issue. */
  predicate Fits(j: Job, issue: Snapshot, reviewers: set<string>, key: Option<string>) {
    j.snapshot.ContentHash() == issue.ContentHash() && Route(issue, reviewers) == Eligible(j.routing) &&
      Some(j.key) == key
  }

  /** A fitting row passes the worker's claim check on the unchanged issue, unless its reviewer's name is empty. */
  lemma FittingPassesClaimCheck(j: Job, issue: Snapshot, reviewers: set<string>, key: Option<string>)
    requires Fits(j, issue, reviewers, key)
    ensures ClaimStillMatches(j, issue) <==> j.routing.reviewer != Some("")
  {
    RecheckStableIff(issue, reviewers);
  }

  lemma OneRowPerIssue(db: Db, a: JobId, b: JobId, repository: string, issue: int)
    requires Inv(db) && a in db.jobs && b in db.jobs && IsFor(db.jobs[a], repository, issue)
    requires IsFor(db.jobs[b], repository, issue)
    ensures a == b
  {
  }

  /** What an intake sees of a new issue: an open pull request of its branch, the branch itself, and whether its
      providers are configured, allowed to run and authenticated. */
  datatype Seen = Seen(openPr: Option<int>, remoteBranch: bool, usable: bool)

  class Operator {
    const store: Store
    const scopeKey: (string, set<string>) -> Option<string>
    const branchOf: Snapshot -> string
    const solo: bool

    constructor (
      store: Store, scopeKey: (string, set<string>) -> Option<string>, branchOf: Snapshot -> string, solo: bool)
      ensures this.store == store && this.scopeKey == scopeKey && this.branchOf == branchOf && this.solo == solo
    {
      this.store, this.scopeKey, this.branchOf, this.solo := store, scopeKey, branchOf, solo;
    }

    ghost function Key(issue: Snapshot): Option<string> {
      scopeKey(issue.repository, issue.labels)
    }

    /** Any number of transactions of other processes, if there are any. */
    method Others()
      requires Inv(store.View())
      modifies store
      ensures Inv(store.View()) && (solo ==> store.View() == old(store.View()))
    {
      var n: nat := *;
      while n > 0 && !solo
        invariant Inv(store.View()) && (solo ==> store.View() == old(store.View()))
        decreases n
      {
        var a: Action := *;
        if Enabled(store.View(), a) {
          NextKeepsInv(store.View(), a);
          store.Foreign(a);
        }
        n := n - 1;
      }
    }

    /** One operator command on the row of an issue. */
    method Request(repository: string, issue: int, command: Command) returns (r: Reply<Option<Job>>)
      requires Inv(store.View())
      modifies store
      ensures Inv(store.View())
      ensures r.Ok? && r.value.Some? ==> r.value.value.id in store.jobs && store.jobs[r.value.value.id] == r.value.value
      ensures solo && (r.Err? || r.value.None?) ==> store.View() == old(store.View())
      ensures solo && r.Ok? && r.value.None? ==> !old(Known(store.View(), repository, issue))
      ensures solo && r.Ok? && r.value.Some? ==> exists now ::
        Controlled(old(store.View()), r.value.value.id, repository, issue, command, now)
      ensures r.Err? ==> command.Unknown?
    {
      Others();
      var now: int := *;
      ghost var before := store.View();
      r := store.RequestControl(repository, issue, command, now);
      if r.Ok? && r.value.Some? {
        ghost var id :|
          id in before.jobs && IsFor(before.jobs[id], repository, issue) &&
          store.View() == StoreSpec.Control(before, id, command, now) && id in store.jobs &&
          r.value.value == store.jobs[id];
        ControlKeepsInv(before, id, command, now);
        assert solo ==> Controlled(old(store.View()), id, repository, issue, command, now);
      }
    }

    /** The tables are those before the call with the command applied to the row of the issue. */
    ghost predicate Controlled(before: Db, id: JobId, repository: string, issue: int, command: Command, now: int)
      reads store
    {
      id in before.jobs && IsFor(before.jobs[id], repository, issue) &&
        store.View() == StoreSpec.Control(before, id, command, now)
    }

    /** Stop the work on an issue that is no longer what was claimed: cancel when it was closed, otherwise pause. */
    method Halt(job: Job, issue: Snapshot) returns (r: Reply<()>)
      requires Inv(store.View())
      modifies store
      ensures Inv(store.View())
      ensures solo && job.id in old(store.jobs) && old(store.jobs[job.id]) == job ==>
        job.id in store.jobs &&
          (if Lower(issue.state) != "open" then store.jobs[job.id].cancel else store.jobs[job.id].pause)
      ensures solo ==> r.Ok?
    {
      hide Inv;
      assert job.id in store.jobs && store.jobs[job.id] == job ==> IsFor(store.jobs[job.id], job.repository, job.issue);
      var halted :=
        Request(job.repository, job.issue, if Lower(issue.state) != "open" then Types.Cancel else Types.Pause);
      if halted.Err? || halted.value.None? {
        return Ok(());
      }
      if solo && job.id in old(store.jobs) && old(store.jobs[job.id]) == job {
        OneRowPerIssue(old(store.View()), job.id, halted.value.value.id, job.repository, job.issue);
      }
      var _ :- Update(halted.value.value.id, NO_PATCH);
      return Ok(());
    }

    method Update(id: JobId, p: StoreSpec.Patch) returns (r: Reply<Job>)
      requires Inv(store.View()) && p.snapshot.None?
      modifies store
      ensures Inv(store.View())
      ensures r.Ok? ==> id in store.jobs && store.jobs[id] == r.value && r.value.id == id
      ensures r.Ok? && p.routing.Some? ==> r.value.routing == p.routing.value
      ensures r.Ok? && p.key.Some? ==> r.value.key == p.key.value
      ensures solo ==> exists now :: store.View() == UpdateJob(old(store.View()), id, p, now)
      ensures solo && id in old(store.jobs) ==> r.Ok?
    {
      Others();
      var now: int := *;
      UpdateKeepsInv(store.View(), id, p, now);
      r := store.UpdateJob(id, p, now);
    }

    method Move(id: JobId, to: JobState) returns (r: Reply<Job>)
      requires Inv(store.View()) && to in {PrOpen, NeedsGuidance}
      modifies store
      ensures Inv(store.View())
      ensures r.Ok? ==> id in store.jobs && store.jobs[id] == r.value && r.value.state == to && r.value.id == id
      ensures solo && id in old(store.jobs) && MoveAllowed(old(store.jobs)[id].state, to) ==> r.Ok?
      ensures solo && r.Ok? && id in old(store.jobs) ==> r.value.prNumber == old(store.jobs)[id].prNumber
    {
      Others();
      var now: int := *;
      TransitionKeepsInv(store.View(), id, PlainMove(to, None), now);
      r := store.Transition(id, PlainMove(to, None), now);
    }

    // ---- intake -----------------------------------------------------------------------------------------------

    /** After an intake every workable row of the issue either fits it or is halted. */
    ghost predicate FitsOrHalted(before: Db, issue: Snapshot, reviewers: set<string>)
      reads store
    {
      forall id ::
        id in before.jobs && IsFor(before.jobs[id], issue.repository, issue.number) && Workable(before.jobs[id]) ==>
        id in store.jobs && (Halted(store.jobs[id]) || Fits(store.jobs[id], issue, reviewers, Key(issue)))
    }

    /** An ineligible issue halts the existing job; the intake is refused in any case. */
    method Refuse(existing: Option<Job>, issue: Snapshot, ghost reviewers: set<string>)
      requires Inv(store.View()) && (solo ==> IsRowOf(existing, issue))
      modifies store
      ensures Inv(store.View())
      ensures solo ==> FitsOrHalted(old(store.View()), issue, reviewers)
      ensures solo && (existing.None? || !Workable(existing.value)) ==> store.View() == old(store.View())
      ensures solo && existing.Some? && Workable(existing.value) ==>
        existing.value.id in store.jobs && HaltedFor(store.jobs[existing.value.id], issue)
    {
      ghost var before := store.View();
      if existing.Some? && Workable(existing.value) {
        var _ := Halt(existing.value, issue);
      }
      if solo {
        OnlyRow(before, existing, issue);
      }
    }

    /** Work stops for a closed issue by a cancel, otherwise by a pause. */
    predicate HaltedFor(j: Job, issue: Snapshot) {
      if Lower(issue.state) != "open" then j.cancel else j.pause
    }

    /** `existing` is the row of the issue, if there is one. */
    ghost predicate IsRowOf(existing: Option<Job>, issue: Snapshot)
      reads store
    {
      match existing
      case None => !Known(store.View(), issue.repository, issue.number)
      case Some(j) => j.id in store.jobs && store.jobs[j.id] == j && IsFor(j, issue.repository, issue.number)
    }

    lemma OnlyRow(db: Db, existing: Option<Job>, issue: Snapshot)
      requires Inv(db)
      requires match existing
        case None => !Known(db, issue.repository, issue.number)
        case Some(j) => j.id in db.jobs && db.jobs[j.id] == j && IsFor(j, issue.repository, issue.number)
      ensures forall id :: id in db.jobs && IsFor(db.jobs[id], issue.repository, issue.number) ==>
        existing.Some? && id == existing.value.id
    {
    }

    /** Intake of an issue that has a row: refresh an unclaimed row, halt a claimed one that no longer fits. */
    method EnqueueExisting(existing: Job, issue: Snapshot, routing: Routing, key: string, ghost reviewers: set<string>)
      returns (r: Reply<(Job, bool)>)
      requires Inv(store.View()) && (solo ==> IsRowOf(Some(existing), issue))
      requires Route(issue, reviewers) == Eligible(routing) && Key(issue) == Some(key)
      modifies store
      ensures Inv(store.View())
      ensures solo ==> FitsOrHalted(old(store.View()), issue, reviewers)
      ensures solo && !Workable(existing) ==> store.View() == old(store.View())
      ensures solo && r.Ok? ==> r.value.0.id in store.jobs && store.jobs[r.value.0.id] == r.value.0 && !r.value.1
      ensures solo && r.Ok? && Workable(r.value.0) ==> Fits(r.value.0, issue, reviewers, Some(key))
      ensures solo ==>
        (r.Ok? <==> Refreshable(existing) || !Workable(existing) || Fits(existing, issue, reviewers, Some(key)))
      ensures solo && r.Ok? && !Refreshable(existing) ==> store.View() == old(store.View())
      ensures solo && r.Err? ==> existing.id in store.jobs && HaltedFor(store.jobs[existing.id], issue)
      ensures solo && Refreshable(existing) ==> r.value.0.snapshot == issue && r.value.0.branch == branchOf(issue)
    {
      ghost var before := store.View();
      if solo {
        OnlyRow(before, Some(existing), issue);
      }
      if existing.state == Queued && existing.attempt == 0 {
        Refresh(existing, issue, routing, key);
      } else if Workable(existing) && !(existing.snapshot.ContentHash() == issue.ContentHash() &&
        existing.routing == routing && existing.key == key) {
        Refuse(Some(existing), issue, reviewers);
        return Err("issue specification or routing changed after claim");
      }
      Others();
      var current := store.GetJob(existing.id);
      return Ok((Or(current, existing), false));
    }

    method Refresh(existing: Job, issue: Snapshot, routing: Routing, key: string)
      requires Inv(store.View()) && (solo ==> IsRowOf(Some(existing), issue)) && Refreshable(existing)
      modifies store
      ensures Inv(store.View())
      ensures solo ==> existing.id in store.jobs && store.jobs[existing.id].id == existing.id
      ensures solo ==>
        var j := store.jobs[existing.id];
        j.snapshot == issue && j.routing == routing && j.key == key && j.branch == branchOf(issue)
    {
      Others();
      var now: int := *;
      ghost var before := store.View();
      var updated := store.UpdateSnapshotIfUnclaimed(issue, routing, branchOf(issue), key, now);
      if updated {
        ghost var id :|
          RefreshTarget(before, id, issue) &&
          store.View() == RefreshSnapshot(before, id, issue, routing, branchOf(issue), key, now);
        RefreshKeepsInv(before, id, issue, routing, branchOf(issue), key, now);
        if solo { OneRowPerIssue(before, id, existing.id, issue.repository, issue.number); }
      } else {
        assert solo ==> RefreshTarget(before, existing.id, issue);
      }
    }

    /** Intake of an issue without a row: create it, adopt an open pull request of its branch, and leave it to the
        operator when its branch already exists or its providers are not usable; otherwise it waits in the queue. */
    method EnqueueNew(issue: Snapshot, routing: Routing, key: string) returns (r: Reply<(Job, bool)>, seen: Seen)
      requires Inv(store.View()) && (solo ==> !Known(store.View(), issue.repository, issue.number))
      modifies store
      ensures Inv(store.View())
      ensures solo && r.Ok? ==> r.value.1 && r.value.0.id in store.jobs && store.jobs[r.value.0.id] == r.value.0
      ensures solo && r.Ok? && Workable(r.value.0) ==>
        var j := r.value.0; j.snapshot == issue && j.routing == routing && j.key == key && j.branch == branchOf(issue)
      ensures solo && r.Ok? ==> Placed(r.value.0, seen)
    {
      var openPr: Option<int>, remoteBranch: bool, usable: bool, reachable: bool := *, *, *, *;
      seen := Seen(openPr, remoteBranch, usable);
      if !reachable {
        return Err("github"), seen;
      }
      Others();
      var id: JobId, now: int := *, *;
      EnsureKeepsInv(store.View(), id, issue, routing, branchOf(issue), key, now);
      var ensured :- store.EnsureJob(id, issue, routing, branchOf(issue), key, now);
      var job, created := ensured.0, ensured.1;
      if openPr.Some? {
        var adopted :- Update(job.id, NO_PATCH.(prNumber := openPr, phase := Some("adopted-existing-pr")));
        job :- Move(adopted.id, PrOpen);
        return Ok((job, created)), seen;
      }
      if remoteBranch || !usable {
        job :- Move(job.id, NeedsGuidance);
      }
      return Ok((job, created)), seen;
    }

    /** Where a new job waits. */
    predicate Placed(j: Job, seen: Seen) {
      && (j.state == PrOpen <==> seen.openPr.Some?) && (j.state == PrOpen ==> j.prNumber == seen.openPr)
      && (j.state == NeedsGuidance <==> seen.openPr.None? && (seen.remoteBranch || !seen.usable))
      && (j.state == Queued <==> seen.openPr.None? && !seen.remoteBranch && seen.usable)
    }

    /** Intake of a live issue. `admitted` says that the repository is allowed and private enough. Undisturbed, an
        existing job is accepted exactly when the issue is eligible and the job may be refreshed, is not workable or
        fits; accepted without a refresh it is not touched, and a workable one that is not accepted is halted. */
    method Enqueue(issue: Snapshot, admitted: bool) returns (r: Reply<(Job, bool)>, reviewers: set<string>, seen: Seen)
      requires Inv(store.View())
      modifies store
      ensures Inv(store.View())
      ensures solo && r.Ok? ==> (r.value.1 <==> !old(Known(store.View(), issue.repository, issue.number)))
      ensures solo && r.Ok? ==> r.value.0.id in store.jobs && store.jobs[r.value.0.id] == r.value.0
      ensures solo && r.Ok? && r.value.1 ==> Placed(r.value.0, seen)
      ensures solo && r.Ok? && Workable(r.value.0) ==> Fits(r.value.0, issue, reviewers, Key(issue))
      ensures solo && admitted ==> FitsOrHalted(old(store.View()), issue, reviewers)
      ensures solo && admitted ==>
        forall id :: id in old(store.jobs) && IsFor(old(store.jobs)[id], issue.repository, issue.number) ==>
          Accepted(r.Ok?, old(store.View()), id, issue, reviewers)
      ensures Route(issue, reviewers).Ineligible? || Key(issue).None? || !admitted ==> r.Err?
      ensures !admitted ==> store.View() == old(store.View())
    {
      hide Inv;
      reviewers, seen := *, Seen(None, false, false);
      if !admitted {
        return Err("not allowed"), reviewers, seen;
      }
      Others();
      var existing := store.FindJob(issue.repository, issue.number);
      Found(existing, issue);
      if solo { OnlyRow(store.View(), existing, issue); }
      var decision := Route(issue, reviewers);
      var key := scopeKey(issue.repository, issue.labels);
      hide Route;
      if decision.Ineligible? || key.None? {
        Refuse(existing, issue, reviewers);
        r := Err("ineligible");
      } else if existing.Some? {
        r := EnqueueExisting(existing.value, issue, decision.routing, key.value, reviewers);
      } else {
        r, seen := EnqueueNew(issue, decision.routing, key.value);
      }
    }

    /** How an existing job of the issue is treated. */
    ghost predicate Accepted(ok: bool, before: Db, id: JobId, issue: Snapshot, reviewers: set<string>)
      requires id in before.jobs
      reads store
    {
      var j := before.jobs[id];
      var eligible := Route(issue, reviewers).Eligible? && Key(issue).Some?;
      && (ok <==> eligible && (Refreshable(j) || !Workable(j) || Fits(j, issue, reviewers, Key(issue))))
      && ((ok && !Refreshable(j)) || !Workable(j) ==> store.View() == before)
      && (!ok && Workable(j) ==> id in store.jobs && HaltedFor(store.jobs[id], issue))
    }

    lemma Found(existing: Option<Job>, issue: Snapshot)
      requires Inv(store.View())
      requires existing.Some? ==> exists id ::
        id in store.jobs && store.jobs[id] == existing.value && IsFor(existing.value, issue.repository, issue.number)
      requires existing.None? <==> !Known(store.View(), issue.repository, issue.number)
      ensures IsRowOf(existing, issue)
    {
    }

    // ---- operator commands --------------------------------------------------------------------------------------

    /** A queued row of the issue fits the live issue exactly when GitHub was reached, or it did before the call. */
    ghost predicate QueuedFitsIff(before: Db, live: Snapshot, reviewers: set<string>, reached: bool)
      reads store
    {
      forall id :: id in before.jobs && IsFor(before.jobs[id], live.repository, live.number) ==>
        id in store.jobs && FitsIff(before.jobs[id], store.jobs[id], live, reviewers, reached)
    }

    ghost predicate FitsIff(j: Job, j': Job, live: Snapshot, reviewers: set<string>, reached: bool) {
      IsQueued(j') ==> (Fits(j', live, reviewers, Key(live)) <==> reached || Fits(j, live, reviewers, Key(live)))
    }

    /** A job of the issue is queued afterwards exactly when it was neither active nor done and, if GitHub was reached,
        the live issue is eligible and has a concurrency scope; otherwise such a job asks for guidance. */
    ghost predicate RequeuesIff(before: Db, live: Snapshot, reviewers: set<string>, reached: bool)
      reads store
    {
      forall id :: id in before.jobs && IsFor(before.jobs[id], live.repository, live.number) ==>
        id in store.jobs && Requeues(before.jobs[id], store.jobs[id], live, reviewers, reached)
    }

    ghost predicate Requeues(j: Job, j': Job, live: Snapshot, reviewers: set<string>, reached: bool) {
      var workable := reached ==> Route(live, reviewers).Eligible? && Key(live).Some?;
      if j.state in {Running, Reviewing, Done} then j'.state == j.state
      else j'.state == if workable then Queued else NeedsGuidance
    }

    predicate IsQueued(j: Job) {
      j.state == Queued
    }

    /** An operator command. A stop is recorded before anything else can fail. `reached` says that after the command was
        recorded the control labels were set and, for a requeue, the live issue was read. Then a requeued job that is
        left in the queue carries the live specification, routing and scope, whatever fails afterwards; otherwise it
        waits there with the old ones. */
    method Control(repository: string, issue: int, command: Command, live: Snapshot)
      returns (r: Reply<Option<Job>>, reviewers: set<string>, reached: bool)
      requires Inv(store.View()) && live.repository == repository && live.number == issue
      modifies store
      ensures Inv(store.View())
      ensures solo && command in {Pause, Types.Cancel} ==>
        forall id :: id in old(store.jobs) && IsFor(old(store.jobs)[id], repository, issue) ==>
          id in store.jobs && Flagged(store.jobs[id], command)
      ensures solo && command in {Resume, Types.Retry} ==> QueuedFitsIff(old(store.View()), live, reviewers, reached)
      ensures solo && command in {Resume, Types.Retry} ==> RequeuesIff(old(store.View()), live, reviewers, reached)
      ensures solo && command in {Resume, Types.Retry} && r.Ok? ==> reached && r.value.Some?
      ensures solo && command in {Resume, Types.Retry} && r.Ok? && r.value.value.state == Queued ==>
        var j := r.value.value; j.id in store.jobs && store.jobs[j.id] == j && Fits(j, live, reviewers, Key(live))
    {
      hide Inv;
      reviewers, reached := *, false;
      ghost var before := store.View();
      var requested := Request(repository, issue, command);
      if requested.Err? {
        return requested, reviewers, reached;
      }
      if requested.value.Some? && solo {
        Stopped(before, requested.value.value.id, repository, issue, command);
      }
      reached := *;
      if !reached {
        return Err("github"), reviewers, reached;
      }
      if command !in {Resume, Types.Retry} {
        return requested, reviewers, reached;
      }
      if requested.value.None? {
        var admitted: bool := *;
        var queued, seen;
        queued, reviewers, seen := Enqueue(live, admitted);
        r := if queued.Ok? then Ok(Some(queued.value.0)) else Err(queued.message);
      } else if requested.value.value.state == Queued {
        r := Accept(requested.value.value, live, reviewers);
      } else {
        r := requested;
      }
    }

    predicate Flagged(j: Job, command: Command) {
      if command == Pause then j.pause else j.cancel
    }

    predicate SameSpec(j: Job, j': Job) {
      j'.snapshot == j.snapshot && j'.routing == j.routing && j'.key == j.key
    }

    lemma Stopped(before: Db, id: JobId, repository: string, issue: int, command: Command)
      requires Inv(before) && exists now :: Controlled(before, id, repository, issue, command, now)
      ensures forall x :: x in before.jobs && IsFor(before.jobs[x], repository, issue) ==>
        x == id && x in store.jobs && SameSpec(before.jobs[x], store.jobs[x])
      ensures command in {Resume, Types.Retry} ==>
        forall x :: x in before.jobs && IsFor(before.jobs[x], repository, issue) ==>
          store.jobs[x].state ==
            if before.jobs[x].state in {Running, Reviewing, Done} then before.jobs[x].state else Queued
      ensures command in {Pause, Types.Cancel} ==>
        forall x :: x in before.jobs && IsFor(before.jobs[x], repository, issue) ==> Flagged(store.jobs[x], command)
    {
    }

    /** Accept the live revision of a requeued job, then its routing and scope. */
    method Accept(job: Job, live: Snapshot, reviewers: set<string>) returns (r: Reply<Option<Job>>)
      requires Inv(store.View())
      modifies store
      ensures Inv(store.View())
      ensures r.Ok? ==> r.value.Some? && r.value.value.id in store.jobs && store.jobs[r.value.value.id] == r.value.value
      ensures solo && r.Ok? && r.value.value.state != NeedsGuidance ==> Fits(r.value.value, live, reviewers, Key(live))
      ensures r.Ok? && r.value.value.state != NeedsGuidance ==>
        Route(live, reviewers) == Eligible(r.value.value.routing) && Some(r.value.value.key) == Key(live)
      ensures solo && job.id in old(store.jobs) && old(store.jobs)[job.id].state == Queued ==> job.id in store.jobs
      ensures solo && job.id in old(store.jobs) && old(store.jobs)[job.id].state == Queued ==>
        store.jobs[job.id].state == NeedsGuidance || Fits(store.jobs[job.id], live, reviewers, Key(live))
      ensures solo && job.id in old(store.jobs) && old(store.jobs)[job.id].state == Queued ==>
        store.jobs[job.id].state ==
          if Route(live, reviewers).Eligible? && Key(live).Some? then Queued else NeedsGuidance
    {
      hide Inv, Route;
      var decision := Route(live, reviewers);
      if decision.Ineligible? {
        r := LeaveForGuidance(job.id);
        return;
      }
      Others();
      var now: int := *;
      AcceptKeepsInv(store.View(), job.id, live, now);
      var accepted :- store.AcceptSnapshot(job.id, live, now);
      var key := scopeKey(live.repository, live.labels);
      if key.None? {
        r := LeaveForGuidance(job.id);
        return;
      }
      var updated :- Update(job.id, NO_PATCH.(routing := Some(decision.routing), key := key));
      r := Publish(updated);
    }

    method LeaveForGuidance(id: JobId) returns (r: Reply<Option<Job>>)
      requires Inv(store.View())
      modifies store
      ensures Inv(store.View())
      ensures r.Ok? ==> r.value.Some? && r.value.value.id in store.jobs && store.jobs[r.value.value.id] == r.value.value
      ensures r.Ok? ==> r.value.value.state == NeedsGuidance
      ensures solo && id in old(store.jobs) && old(store.jobs)[id].state == Queued ==>
        id in store.jobs && store.jobs[id].state == NeedsGuidance
    {
      hide Inv;
      var stopped :- Move(id, NeedsGuidance);
      r := Publish(stopped);
    }

    /** Publish the status and write the report; either may raise. */
    method Publish(job: Job) returns (r: Reply<Option<Job>>)
      ensures r.Ok? ==> r.value == Some(job)
    {
      var raised: bool := *;
      return if raised then Err("github") else Ok(Some(job));
    }
  }
}

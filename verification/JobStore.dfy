/** The store: one object over the tables, one method per transaction. Every method is proved against the
    function of `StoreSpec` that describes it. */
module JobStore {
  import opened Types
  import opened StoreSpec
  import StoreActions
  import opened StoreInvariant

  datatype Reply<+T> = Ok(value: T) | Err(message: string) {
    predicate IsFailure() { Err? }
    function PropagateFailure<U>(): Reply<U> requires Err? { Err(message) }
    function Extract(): T requires Ok? { value }
  }

  /** The answer of a claim. `Conflict` is the rejected lease insert of a queued job that still holds a lease. */
  datatype ClaimReply = NoJob | Claimed(id: JobId, job: Job) | Conflict(id: JobId)

  /** `x` may stand after `y` in the claim order. */
  predicate NotBefore(db: Db, x: JobId, y: JobId) {
    x in db.jobs && y in db.jobs && !Before(RankOf(db, x), RankOf(db, y))
  }

  lemma BeforeIsOrder(a: Rank, b: Rank, c: Rank)
    ensures !(Before(a, b) && Before(b, a))
    ensures Before(a, b) && Before(b, c) ==> Before(a, c)
    ensures !Before(b, a) && !Before(c, b) ==> !Before(c, a)
  {
  }

  /** The chosen row is not behind the other one: retry requests come first, then the repository whose last claim is
      older or that has none, then the row updated earlier, then the row created earlier. */
  predicate NotBehind(db: Db, chosen: JobId, other: JobId)
    requires chosen in db.jobs && other in db.jobs
  {
    var c, o := db.jobs[chosen], db.jobs[other];
    var mine, theirs := LastClaim(db.jobs, db.events, c.repository), LastClaim(db.jobs, db.events, o.repository);
    && (o.retry ==> c.retry)
    && (o.retry == c.retry ==> mine.None? || (theirs.Some? && mine.value <= theirs.value))
    && (o.retry == c.retry && theirs == mine ==> c.updatedAt <= o.updatedAt)
    && (o.retry == c.retry && theirs == mine && c.updatedAt == o.updatedAt ==> c.createdAt <= o.createdAt)
  }

  lemma ChosenNotBehind(db: Db, chosen: JobId, other: JobId)
    requires chosen in db.jobs && other in db.jobs
    ensures !Before(RankOf(db, other), RankOf(db, chosen)) <==> NotBehind(db, chosen, other)
  {
  }

  /** The row an unclaimed-snapshot refresh updates. */
  predicate RefreshTarget(db: Db, id: JobId, snapshot: Snapshot) {
    id in db.jobs && IsFor(db.jobs[id], snapshot.repository, snapshot.number) && Refreshable(db.jobs[id])
  }

  /** A row as the tables have it, whose lease has run out. */
  predicate IsExpiredRow(db: Db, j: Job, now: int) {
    j.id in db.jobs && db.jobs[j.id] == j && ExpiredLease(db, j.id, now)
  }

  predicate OldestFirst(rows: seq<Job>) {
    forall i, k :: 0 <= i < k < |rows| ==> rows[i].createdAt <= rows[k].createdAt
  }

  predicate Sorted(db: Db, rows: seq<JobId>) {
    forall i, j :: 0 <= i < j < |rows| ==> NotBefore(db, rows[j], rows[i])
  }

  /** What a command makes of a job: a cancel stops it unless it is active, a pause when it is queued, and a resume or
      retry queues it unless it is active or done. */
  predicate Obeys(j: Job, j': Job, command: Command) {
    match command
    case Cancel => j'.cancel && (j'.state == Canceled <==> j.state !in {Running, Reviewing})
    case Pause => j'.pause && (j.state == Queued ==> j'.state == NeedsGuidance)
    case Unknown(_) => false
    case _ => j'.state == Queued <==> j.state !in {Running, Reviewing, Done}
  }

  class Store {
    var jobs: map<JobId, Job>
    var leases: map<string, Lease>
    var events: seq<Event>
    var deliveries: set<string>
    var backoff: map<string, int>
    var locks: map<string, Lock>

    function View(): Db
      reads this
    {
      Db(jobs, leases, events, deliveries, backoff, locks)
    }

    constructor ()
      ensures View() == EMPTY
    {
      jobs, leases, events, deliveries, backoff, locks := map[], map[], [], {}, map[], map[];
    }

    /** A transaction of another process, as it shows in the tables. */
    method Foreign(a: StoreActions.Action)
      modifies this
      ensures View() == StoreActions.Next(old(View()), a)
    {
      var db := StoreActions.Next(View(), a);
      jobs, leases, events, deliveries, backoff, locks :=
        db.jobs, db.leases, db.events, db.deliveries, db.backoff, db.locks;
    }

    // ---- intake ---------------------------------------------------------------------------------------------

    /** The existing row, or the new one and `true`. */
    method EnsureJob(id: JobId, snapshot: Snapshot, routing: Routing, branch: string, key: string, now: int)
      returns (r: Reply<(Job, bool)>)
      modifies this
      ensures View() == StoreSpec.EnsureJob(old(View()), id, snapshot, routing, branch, key, now)
      ensures r.Ok? && !r.value.1 ==> IsFor(r.value.0, snapshot.repository, snapshot.number) && View() == old(View())
      ensures r.Ok? && r.value.1 ==> r.value.0 == NewJob(id, snapshot, routing, branch, key, now) && id !in old(jobs)
      ensures r.Err? <==> !old(Known(View(), snapshot.repository, snapshot.number)) && id in old(jobs)
    {
      if existing :| existing in jobs && IsFor(jobs[existing], snapshot.repository, snapshot.number) {
        return Ok((jobs[existing], false));
      }
      if id in jobs {
        return Err("duplicate job id");
      }
      jobs := jobs[id := NewJob(id, snapshot, routing, branch, key, now)];
      events := events + [Event(id, now, Created)];
      return Ok((jobs[id], true));
    }

    method UpdateSnapshotIfUnclaimed(
      snapshot: Snapshot, routing: Routing, branch: string, key: string, now: int) returns (updated: bool)
      modifies this
      ensures updated ==>
        exists id ::
          RefreshTarget(old(View()), id, snapshot) &&
          View() == RefreshSnapshot(old(View()), id, snapshot, routing, branch, key, now)
      ensures !updated ==> View() == old(View()) && forall id :: !RefreshTarget(View(), id, snapshot)
    {
      if id :| id in jobs && IsFor(jobs[id], snapshot.repository, snapshot.number) && Refreshable(jobs[id]) {
        assert RefreshTarget(old(View()), id, snapshot);
        jobs :=
          jobs[id := jobs[id].(snapshot := snapshot, routing := routing, branch := branch, key := key,
            updatedAt := now)];
        return true;
      }
      return false;
    }

    method AcceptSnapshot(id: JobId, snapshot: Snapshot, now: int) returns (r: Reply<Job>)
      modifies this
      ensures View() == StoreSpec.AcceptSnapshot(old(View()), id, snapshot, now)
      ensures r.Ok? <==> id in old(jobs) && old(jobs)[id].state == Queued
      ensures r.Ok? ==> id in jobs && r.value == jobs[id] && r.value.snapshot == snapshot
    {
      if id !in jobs {
        return Err("unknown job");
      }
      if jobs[id].state != Queued {
        return Err("a new issue revision may only be accepted while explicitly requeued");
      }
      jobs := jobs[id := jobs[id].(snapshot := snapshot, updatedAt := now)];
      events := events + [Event(id, now, SnapshotAccepted)];
      return Ok(jobs[id]);
    }

    method GetJob(id: JobId) returns (r: Option<Job>)
      ensures r == if id in jobs then Some(jobs[id]) else None
    {
      return if id in jobs then Some(jobs[id]) else None;
    }

    method FindJob(repository: string, issue: int) returns (r: Option<Job>)
      ensures r.Some? ==> exists id :: id in jobs && jobs[id] == r.value && IsFor(r.value, repository, issue)
      ensures r.None? <==> !Known(View(), repository, issue)
    {
      if id :| id in jobs && IsFor(jobs[id], repository, issue) {
        return Some(jobs[id]);
      }
      return None;
    }

    // ---- claiming -------------------------------------------------------------------------------------------

    /** The selectable rows in claim order; rows of equal rank come in any order. */
    method SelectRows(now: int) returns (rows: seq<JobId>)
      ensures forall x :: x in rows <==> Selectable(View(), x, now)
      ensures Sorted(View(), rows)
    {
      var todo := set x | x in jobs && Selectable(View(), x, now);
      rows := [];
      while todo != {}
        invariant forall x :: Selectable(View(), x, now) <==> x in todo || x in rows
        invariant Sorted(View(), rows)
        decreases todo
      {
        var x :| x in todo;
        todo := todo - {x};
        var k := 0;
        while k < |rows| && NotBefore(View(), x, rows[k])
          invariant 0 <= k <= |rows|
          invariant forall i :: 0 <= i < k ==> NotBefore(View(), x, rows[i])
        {
          k := k + 1;
        }
        InsertSorted(View(), rows, k, x);
        rows := rows[..k] + [x] + rows[k..];
      }
    }

    /** The scan takes the first row in order whose provider has capacity; it answers nothing exactly when the
        limit is reached or no row is runnable, and otherwise no runnable row precedes its choice. In the words of the
        tables: a choice finds room below the global limit and its provider's allowance and is behind no other row that
        could be chosen; without one, the global limit is reached or every selectable row's provider has its fill. */
    method ClaimNext(args: ClaimArgs) returns (r: ClaimReply)
      modifies this
      ensures r.NoJob? ==> LegalChoice(old(View()), args, None) && View() == old(View())
      ensures r.Claimed? ==> LegalChoice(old(View()), args, Some(r.id)) && !Leased(old(View()), r.id)
      ensures r.Claimed? ==> View() == Claim(old(View()), r.id, args) && r.id in jobs && r.job == jobs[r.id]
      ensures r.Conflict? ==>
        LegalChoice(old(View()), args, Some(r.id)) && Leased(old(View()), r.id) && View() == old(View())
      ensures !r.NoJob? ==>
        r.id in old(jobs) && |Unexpired(old(View()), args.now)| < args.globalLimit &&
        HasRoom(old(View()), old(jobs)[r.id].routing.implementer, args) && Foremost(old(View()), r.id, args)
      ensures r.NoJob? ==>
        |Unexpired(old(View()), args.now)| >= args.globalLimit ||
        forall id :: Selectable(old(View()), id, args.now) ==>
          !HasRoom(old(View()), old(jobs)[id].routing.implementer, args)
    {
      if |LiveKeys(View(), args.now)| >= args.globalLimit {
        LegalMeans(View(), args, None);
        return NoJob;
      }
      var rows := SelectRows(args.now);
      assert forall k :: 0 <= k < |rows| ==> rows[k] in rows && Selectable(View(), rows[k], args.now);
      var i := 0;
      while i < |rows| && !HasCapacity(View(), jobs[rows[i]].routing.implementer, args)
        invariant 0 <= i <= |rows|
        invariant forall k :: 0 <= k < i ==> !Runnable(View(), rows[k], args)
      {
        i := i + 1;
      }
      FirstIsLegal(View(), args, rows, i);
      LegalMeans(View(), args, if i < |rows| then Some(rows[i]) else None);
      hide LegalChoice, HasRoom, Foremost, Selectable, HasCapacity;
      if i == |rows| {
        return NoJob;
      }
      var id := rows[i];
      if Leased(View(), id) {
        return Conflict(id);
      }
      TakeLease(id, args);
      return ClaimReply.Claimed(id, jobs[id]);
    }

    /** The claim's writes: the lease row, the job row that mirrors it, and the event. */
    method TakeLease(id: JobId, args: ClaimArgs)
      requires id in jobs && !Leased(View(), id) && jobs[id].key !in leases
      modifies this
      ensures View() == Claim(old(View()), id, args) && id in jobs
    {
      var key, expires := jobs[id].key, args.now + args.seconds;
      leases := leases[key := Lease(id, args.owner, expires)];
      jobs := jobs[id := jobs[id].(state := Running, leaseOwner := Some(args.owner), leaseExpiresAt := Some(expires),
                                   updatedAt := args.now, phase := "preflight")];
      events := events + [Event(id, args.now, EventKind.Claimed)];
    }

    // ---- a claimed job --------------------------------------------------------------------------------------

    method BeginAttempt(id: JobId, conversation: Option<string>, now: int) returns (r: Reply<Job>)
      modifies this
      ensures View() == StoreSpec.BeginAttempt(old(View()), id, conversation, now)
      ensures r.Ok? <==> id in old(jobs) && old(jobs)[id].state == Running
      ensures r.Ok? ==> id in jobs && r.value == jobs[id]
    {
      if id !in jobs {
        return Err("unknown job");
      }
      if jobs[id].state != Running {
        return Err("an implementation attempt may only start for a running job");
      }
      var attempt := jobs[id].attempt + 1;
      jobs := jobs[id := jobs[id].(attempt := attempt, conversation := Coalesce(conversation, jobs[id].conversation),
                                   phase := "implementation", retry := false, updatedAt := now)];
      events := events + [Event(id, now, AttemptStarted(attempt))];
      return Ok(jobs[id]);
    }

    /** Succeeds exactly when the owner holds an unexpired lease of the job. */
    method RenewLease(id: JobId, owner: string, seconds: int, now: int) returns (renewed: bool)
      modifies this
      ensures View() == StoreSpec.RenewLease(old(View()), id, owner, seconds, now)
      ensures renewed <==> Renewable(old(View()), id, owner, now)
    {
      renewed := Renewable(View(), id, owner, now);
      if renewed {
        leases := map k | k in leases ::
          var l := leases[k];
          if l.jobId == id && l.owner == owner && l.expiresAt > now then l.(expiresAt := now + seconds) else l;
        if id in jobs {
          jobs := jobs[id := jobs[id].(leaseExpiresAt := Some(now + seconds), updatedAt := now)];
        }
      }
    }

    method Transition(id: JobId, m: Move, now: int) returns (r: Reply<Job>)
      modifies this
      ensures View() == StoreSpec.Transition(old(View()), id, m, now)
      ensures r.Ok? <==> id in old(jobs) && MoveAllowed(old(jobs)[id].state, m.to)
      ensures r.Ok? ==> id in jobs && r.value == jobs[id]
    {
      if id !in jobs {
        return Err("unknown job");
      }
      var job := jobs[id];
      var from := job.state;
      if m.to != from && m.to !in Allowed(from) {
        return Err("invalid transition");
      }
      job := job.(state := m.to, updatedAt := now);
      if m.phase.Some? {
        job := job.(phase := m.phase.value);
      }
      if m.validation.Some? {
        job := job.(validation := m.validation.value);
      }
      if Releases(m) {
        job := Unowned(job);
        leases := WithoutLease(leases, id);
      }
      assert job == Moving(old(jobs)[id], m, now);
      jobs := jobs[id := job];
      events := events + [Event(id, now, Moved(from, m.to, m.phase, m.notes))];
      return Ok(job);
    }

    method UpdateJob(id: JobId, p: Patch, now: int) returns (r: Reply<Job>)
      modifies this
      ensures View() == StoreSpec.UpdateJob(old(View()), id, p, now)
      ensures r.Ok? <==> id in old(jobs)
      ensures r.Ok? ==> id in jobs && r.value == jobs[id]
    {
      if id !in jobs {
        return Err("unknown job");
      }
      jobs := jobs[id := Patched(jobs[id], p, now)];
      return Ok(jobs[id]);
    }

    // ---- operator commands ----------------------------------------------------------------------------------

    /** Finds the row of the issue and applies the command to it; `None` when there is no such row. */
    method RequestControl(repository: string, issue: int, command: Command, now: int) returns (r: Reply<Option<Job>>)
      modifies this
      ensures r.Err? || r.value.None? ==> View() == old(View())
      ensures r.Ok? && r.value.None? <==> !old(Known(View(), repository, issue))
      ensures r.Err? ==> command.Unknown?
      ensures r.Ok? && r.value.Some? ==>
        exists id ::
          id in old(jobs) && IsFor(old(jobs)[id], repository, issue) &&
          View() == Control(old(View()), id, command, now) && id in jobs && r.value.value == jobs[id] &&
          Obeys(old(jobs)[id], jobs[id], command)
    {
      if id :| id in jobs && IsFor(jobs[id], repository, issue) {
        match command {
          case Unknown(_) => return Err("unknown control command");
          case Cancel => ApplyCancel(id, now);
          case Pause => ApplyPause(id, now);
          case Resume => ApplyRequeue(id, command, now);
          case Retry => ApplyRequeue(id, command, now);
        }
        return Ok(Some(jobs[id]));
      }
      return Ok(None);
    }

    method ApplyCancel(id: JobId, now: int)
      requires id in jobs
      modifies this
      ensures View() == Control(old(View()), id, Cancel, now) && id in jobs
      ensures jobs[id].cancel && (jobs[id].state == Canceled <==> old(jobs[id]).state !in {Running, Reviewing})
    {
      jobs := jobs[id := jobs[id].(cancel := true, updatedAt := now)];
      if jobs[id].state !in ACTIVE {
        jobs := jobs[id := Unowned(jobs[id]).(state := Canceled, phase := "canceled")];
        leases := WithoutLease(leases, id);
      }
      events := events + [Event(id, now, Controlled(Cancel, false))];
    }

    method ApplyPause(id: JobId, now: int)
      requires id in jobs
      modifies this
      ensures View() == Control(old(View()), id, Pause, now) && id in jobs
      ensures jobs[id].pause && (jobs[id].state == old(jobs[id]).state <==> old(jobs[id]).state != Queued)
    {
      jobs := jobs[id := jobs[id].(pause := true, updatedAt := now)];
      if jobs[id].state == Queued {
        jobs := jobs[id := Unowned(jobs[id]).(state := NeedsGuidance, phase := "paused")];
        leases := WithoutLease(leases, id);
      }
      events := events + [Event(id, now, Controlled(Pause, false))];
    }

    method ApplyRequeue(id: JobId, command: Command, now: int)
      requires id in jobs && command in {Resume, Retry}
      modifies this
      ensures View() == Control(old(View()), id, command, now) && id in jobs
      ensures jobs[id].state == Queued <==> old(jobs[id]).state !in {Running, Reviewing, Done}
      ensures old(jobs[id]).state in {NeedsGuidance, Blocked, Failed, Canceled, PrOpen} ==>
        jobs[id].retry && !jobs[id].cancel && !jobs[id].pause
    {
      hide ResetsAttempts;
      var reset := ResetsAttempts(View(), id);
      QueueAgain(id, reset, now);
      events := events + [Event(id, now, Controlled(command, reset))];
    }

    method QueueAgain(id: JobId, reset: bool, now: int)
      requires id in jobs && reset == ResetsAttempts(View(), id)
      modifies this`jobs
      ensures View() == Requeued(old(View()), id, now) && id in jobs
      ensures jobs[id].state == Queued <==> old(jobs[id]).state !in {Running, Reviewing, Done}
      ensures old(jobs[id]).state in {NeedsGuidance, Blocked, Failed, Canceled, PrOpen} ==>
        jobs[id].retry && !jobs[id].cancel && !jobs[id].pause
    {
      hide ResetsAttempts;
      var state := jobs[id].state;
      if state in {NeedsGuidance, Blocked, Failed, Canceled} || state == PrOpen || (state == Queued && reset) {
        jobs := jobs[id := RequeuedJob(jobs[id], reset, now)];
      }
    }

    // ---- lease recovery -------------------------------------------------------------------------------------

    /** The rows whose lease has run out, oldest first. */
    method ExpiredLeaseJobs(now: int) returns (rows: seq<Job>)
      requires forall id :: id in jobs ==> jobs[id].id == id
      ensures forall j :: j in rows <==> IsExpiredRow(View(), j, now)
      ensures NoDuplicates(rows)
      ensures OldestFirst(rows)
    {
      hide ExpiredLease;
      var todo := set id | id in jobs && ExpiredLease(View(), id, now);
      rows := [];
      while todo != {}
        invariant forall id :: id in todo ==> id in jobs && ExpiredLease(View(), id, now)
        invariant forall j :: IsExpiredRow(View(), j, now) <==> j in rows || (j.id in todo && jobs[j.id] == j)
        invariant forall j :: j in rows ==> j.id !in todo
        invariant NoDuplicates(rows)
        invariant OldestFirst(rows)
        decreases todo
      {
        var id :| id in todo;
        var k := PlaceOf(rows, jobs[id]);
        InsertDistinct(rows, k, jobs[id]);
        rows := rows[..k] + [jobs[id]] + rows[k..];
        todo := todo - {id};
      }
    }

    /** Behind the rows that are not younger. */
    static method PlaceOf(rows: seq<Job>, job: Job) returns (k: nat)
      ensures k <= |rows| && (forall i :: 0 <= i < k ==> rows[i].createdAt <= job.createdAt)
      ensures k < |rows| ==> rows[k].createdAt > job.createdAt
    {
      k := 0;
      while k < |rows| && rows[k].createdAt <= job.createdAt
        invariant 0 <= k <= |rows|
        invariant forall i :: 0 <= i < k ==> rows[i].createdAt <= job.createdAt
      {
        k := k + 1;
      }
    }

    /** Recovers the jobs of expired leases in whatever order the rows come, and returns that order. */
    method ReapExpiredLeases(scope: Option<set<JobId>>, now: int) returns (recovered: seq<JobId>)
      modifies this
      ensures LegalOrder(old(View()), scope, recovered, now)
      ensures View() == ReapAll(old(View()), recovered, now)
    {
      hide ExpiredLease, ReapOne;
      var todo := Reapable(View(), scope, now);
      recovered := [];
      while todo != {}
        invariant todo + Ids(recovered) == Reapable(old(View()), scope, now) && todo !! Ids(recovered)
        invariant NoDuplicates(recovered)
        invariant View() == ReapAll(old(View()), recovered, now) && old(jobs).Keys == jobs.Keys
        decreases todo
      {
        var id :| id in todo;
        assert id in Reapable(old(View()), scope, now);
        Recover(id, now);
        ReapOneMore(old(View()), recovered, id, now);
        recovered := recovered + [id];
        todo := todo - {id};
      }
    }

    method Recover(id: JobId, now: int)
      requires id in jobs
      modifies this
      ensures View() == ReapOne(old(View()), id, now) && jobs.Keys == old(jobs).Keys
    {
      var job := Unowned(jobs[id]).(updatedAt := now);
      if job.cancel {
        job := job.(state := Canceled, phase := "canceled");
      } else if job.pause {
        job := job.(state := NeedsGuidance, phase := "paused");
      } else {
        job := job.(state := if job.state == Reviewing then PrOpen else Queued, phase := "recovered-expired-lease");
      }
      jobs := jobs[id := job];
      leases := WithoutLease(leases, id);
      events := events + [Event(id, now, LeaseExpired)];
    }

    // ---- backoff, events, deliveries, operation locks ---------------------------------------------------------

    /** Until its time no queued job of this provider can be claimed; jobs of other providers are not affected. */
    method SetProviderBackoff(provider: string, seconds: int, now: int)
      modifies this
      ensures View() == SetBackoff(old(View()), provider, seconds, now)
      ensures forall t :: BackedOff(View(), provider, t) <==> t < now + seconds
      ensures forall p, t :: p != provider ==> (BackedOff(View(), p, t) <==> BackedOff(old(View()), p, t))
      ensures forall id, t :: id in jobs && jobs[id].routing.implementer == provider && t < now + seconds ==>
        !Selectable(View(), id, t)
      ensures forall id, t :: id in jobs && jobs[id].routing.implementer != provider ==>
        (Selectable(View(), id, t) <==> Selectable(old(View()), id, t))
    {
      backoff := backoff[provider := now + seconds];
    }

    method RecordEvent(id: JobId, name: string, now: int) returns (r: Reply<()>)
      modifies this
      ensures View() == StoreSpec.RecordEvent(old(View()), id, name, now)
      ensures r.Ok? <==> id in old(jobs)
    {
      if id !in jobs {
        return Err("foreign key");
      }
      events := events + [Event(id, now, Noted(name))];
      return Ok(());
    }

    method RecordDelivery(delivery: string) returns (inserted: bool)
      modifies this
      ensures View() == StoreSpec.RecordDelivery(old(View()), delivery)
      ensures inserted <==> delivery !in old(deliveries)
      ensures delivery in deliveries && forall d :: d != delivery ==> (d in deliveries <==> d in old(deliveries))
    {
      inserted := delivery !in deliveries;
      deliveries := deliveries + {delivery};
    }

    /** Expired locks are dropped first; the lock is taken when its name is then free. */
    method AcquireOperationLock(name: string, owner: string, seconds: int, now: int) returns (acquired: bool)
      modifies this
      ensures View() == old(View()).(locks := AcquireLock(old(locks), name, owner, seconds, now))
      ensures acquired <==> name !in LiveLocks(old(locks), now)
      ensures acquired ==> name in locks && locks[name] == Lock(owner, now + seconds)
    {
      locks := LiveLocks(locks, now);
      acquired := name !in locks;
      if acquired {
        locks := locks[name := Lock(owner, now + seconds)];
      }
    }

    /** Frees the name exactly when the caller owns it; a foreign lock and all other names stay. */
    method ReleaseOperationLock(name: string, owner: string)
      modifies this
      ensures View() == old(View()).(locks := ReleaseLock(old(locks), name, owner))
      ensures name in locks <==> name in old(locks) && old(locks)[name].owner != owner
      ensures forall n :: n in locks ==> n in old(locks) && locks[n] == old(locks)[n]
      ensures forall n :: n in old(locks) && n != name ==> n in locks
    {
      if name in locks && locks[name].owner == owner {
        locks := locks - {name};
      }
    }
  }

  /** Taking a free lock and giving it back leaves the other unexpired locks; until then nobody else can take it or
      give it back. */
  lemma LockRoundTrip(locks: map<string, Lock>, name: string, owner: string, other: string, seconds: int, now: int)
    requires name !in LiveLocks(locks, now) && other != owner
    ensures var held := AcquireLock(locks, name, owner, seconds, now);
      && ReleaseLock(held, name, owner) == LiveLocks(locks, now)
      && ReleaseLock(held, name, other) == held
      && forall t, s :: t < now + seconds && t >= now ==>
        AcquireLock(held, name, other, s, t)[name] == Lock(owner, now + seconds)
  {
    assert LiveLocks(locks, now)[name := Lock(owner, now + seconds)] - {name} == LiveLocks(locks, now);
  }

  lemma InsertDistinct(rows: seq<Job>, k: nat, x: Job)
    requires k <= |rows| && x !in rows && NoDuplicates(rows) && OldestFirst(rows)
    requires (forall i :: 0 <= i < k ==> rows[i].createdAt <= x.createdAt) &&
      (k < |rows| ==> rows[k].createdAt > x.createdAt)
    ensures var r := rows[..k] + [x] + rows[k..]; NoDuplicates(r) && OldestFirst(r) && forall j :: j in r <==>
      j in rows || j == x
  {
    assert rows == rows[..k] + rows[k..];
  }

  lemma InsertSorted(db: Db, rows: seq<JobId>, k: nat, x: JobId)
    requires k <= |rows| && x in db.jobs && (forall y :: y in rows ==> y in db.jobs) && Sorted(db, rows)
    requires forall i :: 0 <= i < k ==> NotBefore(db, x, rows[i])
    requires k < |rows| ==> !NotBefore(db, x, rows[k])
    ensures forall y :: y in rows[..k] + [x] + rows[k..] <==> y in rows || y == x
    ensures Sorted(db, rows[..k] + [x] + rows[k..])
  {
  }

  /** Recovering one more job extends the order at its end. */
  lemma ReapOneMore(db: Db, order: seq<JobId>, id: JobId, now: int)
    requires NoDuplicates(order) && id !in Ids(order)
    ensures NoDuplicates(order + [id]) && Ids(order + [id]) == Ids(order) + {id}
    ensures ReapAll(db, order + [id], now) == ReapOne(ReapAll(db, order, now), id, now)
  {
    assert (order + [id])[..|order|] == order;
  }

  /** The provider has fewer unexpired leases than it may. */
  predicate HasRoom(db: Db, provider: string, args: ClaimArgs) {
    |UnexpiredOf(db, provider, args.now)| < Allowance(args, provider)
  }

  /** No row that could be chosen comes before the chosen one. */
  predicate Foremost(db: Db, chosen: JobId, args: ClaimArgs)
    requires chosen in db.jobs
  {
    forall id :: id in db.jobs && Selectable(db, id, args.now) && HasRoom(db, db.jobs[id].routing.implementer, args) ==>
      NotBehind(db, chosen, id)
  }

  lemma RoomIsCapacity(db: Db, provider: string, args: ClaimArgs)
    ensures HasRoom(db, provider, args) <==> HasCapacity(db, provider, args)
  {
    assert UnexpiredOf(db, provider, args.now) == ProviderKeys(db, provider, args.now);
  }

  /** A legal answer in the words of the tables. */
  lemma LegalMeans(db: Db, args: ClaimArgs, choice: Option<JobId>)
    requires LegalChoice(db, args, choice)
    ensures choice.Some? ==>
      choice.value in db.jobs && |Unexpired(db, args.now)| < args.globalLimit &&
      HasRoom(db, db.jobs[choice.value].routing.implementer, args) && Foremost(db, choice.value, args)
    ensures choice.None? ==>
      |Unexpired(db, args.now)| >= args.globalLimit ||
      forall id :: Selectable(db, id, args.now) ==> !HasRoom(db, db.jobs[id].routing.implementer, args)
  {
    assert Unexpired(db, args.now) == LiveKeys(db, args.now);
    forall id | id in db.jobs && Selectable(db, id, args.now)
      ensures HasRoom(db, db.jobs[id].routing.implementer, args) <==> Runnable(db, id, args)
    {
      RoomIsCapacity(db, db.jobs[id].routing.implementer, args);
    }
    hide HasRoom, HasCapacity, Selectable;
    if choice.Some? {
      forall id | id in db.jobs && Runnable(db, id, args) ensures NotBehind(db, choice.value, id) {
        ChosenNotBehind(db, choice.value, id);
      }
    }
  }

  lemma FirstIsLegal(db: Db, args: ClaimArgs, rows: seq<JobId>, i: nat)
    requires |LiveKeys(db, args.now)| < args.globalLimit && i <= |rows|
    requires (forall x :: x in rows <==> Selectable(db, x, args.now)) && Sorted(db, rows)
    requires forall k :: 0 <= k < i ==> !Runnable(db, rows[k], args)
    requires i < |rows| ==> Runnable(db, rows[i], args)
    ensures LegalChoice(db, args, if i < |rows| then Some(rows[i]) else None)
  {
  }
}

/** The table invariants every transaction keeps, and what a single transaction may do to one row. */
module StoreInvariant {
  import opened Types
  import opened StoreSpec
  import opened StoreActions

  const HOLDERS: set<JobState> := {Running, Reviewing, PrOpen, Queued}

  predicate SameIssue(a: Job, b: Job) {
    a.repository == b.repository && a.issue == b.issue
  }

  /** Rows are stored under their id, one per repository and issue. */
  predicate KeysOk(db: Db) {
    && (forall id :: id in db.jobs ==> db.jobs[id].id == id)
    && (forall a, b :: a in db.jobs && b in db.jobs && a != b ==> !SameIssue(db.jobs[a], db.jobs[b]))
  }

  predicate Mirrors(j: Job, l: Lease) {
    j.leaseOwner == Some(l.owner) && j.leaseExpiresAt == Some(l.expiresAt)
  }

  /** A row's lease columns are both set or both empty. */
  predicate Held(j: Job) {
    j.leaseOwner.Some? && j.leaseExpiresAt.Some?
  }

  predicate Free(j: Job) {
    j.leaseOwner.None? && j.leaseExpiresAt.None?
  }

  predicate OneEach(leases: map<string, Lease>) {
    forall k, l :: k in leases && l in leases && k != l ==> leases[k].jobId != leases[l].jobId
  }

  /** Each lease belongs to a job, whose lease columns mirror it. */
  predicate Linked(jobs: map<JobId, Job>, leases: map<string, Lease>) {
    forall k :: k in leases ==> leases[k].jobId in jobs && Mirrors(jobs[leases[k].jobId], leases[k])
  }

  predicate OthersFree(jobs: map<JobId, Job>, leases: map<string, Lease>) {
    forall id {:trigger HasLease(leases, id)} :: id in jobs && !HasLease(leases, id) ==> Free(jobs[id])
  }

  predicate LeasesOk(db: Db) {
    OneEach(db.leases) && Linked(db.jobs, db.leases) && OthersFree(db.jobs, db.leases)
  }

  /** Only four states hold leases, and a running job always holds one. */
  predicate StatesOk(db: Db) {
    forall id :: id in db.jobs ==>
      (Held(db.jobs[id]) || Free(db.jobs[id])) &&
      (Held(db.jobs[id]) ==> db.jobs[id].state in HOLDERS) &&
      (db.jobs[id].state == Running ==> Held(db.jobs[id]))
  }

  predicate Inv(db: Db) {
    KeysOk(db) && LeasesOk(db) && StatesOk(db)
  }

  /** In the words of the tables: the lease row exists exactly when the columns are set. */
  lemma LeasedIffHeld(db: Db, id: JobId)
    requires Inv(db) && id in db.jobs
    ensures Leased(db, id) <==> Held(db.jobs[id])
    ensures Leased(db, id) <==> !Free(db.jobs[id])
  {
  }

  /** The keys of the leases that have not run out, of all jobs and of those a provider implements. */
  function Unexpired(db: Db, now: int): set<string> {
    set k | k in db.leases && !(db.leases[k].expiresAt <= now)
  }

  function UnexpiredOf(db: Db, provider: string, now: int): set<string> {
    set k | k in Unexpired(db, now) && db.leases[k].jobId in db.jobs &&
            db.jobs[db.leases[k].jobId].routing.implementer == provider
  }

  /** How many jobs of a provider may hold leases: one, unless it is configured. */
  function Allowance(args: ClaimArgs, provider: string): int {
    if provider !in args.providerLimits then 1 else args.providerLimits[provider]
  }

  /** At any time a lease is either live, and its owner may renew it, or expired, and its job may be reaped. */
  lemma LiveOrExpired(db: Db, key: string, now: int)
    requires Inv(db) && key in db.leases
    ensures var l := db.leases[key];
      && (key in Unexpired(db, now) <==> Renewable(db, l.jobId, l.owner, now))
      && (key in Unexpired(db, now) <==> !ExpiredLease(db, l.jobId, now))
      && (key in Unexpired(db, now) <==> l.jobId !in Reapable(db, None, now))
  {
  }

  // ---- one row at a time ----------------------------------------------------------------------------------

  /** Only the row of `id` may differ, and it keeps its identity. */
  predicate OneRow(db: Db, r: Db, id: JobId) {
    && r.jobs.Keys == db.jobs.Keys
    && id in db.jobs
    && (forall x :: x in db.jobs && x != id ==> r.jobs[x] == db.jobs[x])
    && r.jobs[id].id == db.jobs[id].id
    && SameIssue(r.jobs[id], db.jobs[id])
  }

  lemma OneRowKeys(db: Db, r: Db, id: JobId)
    requires KeysOk(db) && OneRow(db, r, id)
    ensures KeysOk(r)
  {
  }

  /** A row update that keeps the lease tables and the lease columns. */
  lemma KeepLease(db: Db, r: Db, id: JobId)
    requires Inv(db) && OneRow(db, r, id) && r.leases == db.leases
    requires r.jobs[id].leaseOwner == db.jobs[id].leaseOwner && r.jobs[id].leaseExpiresAt == db.jobs[id].leaseExpiresAt
    requires Held(r.jobs[id]) ==> r.jobs[id].state in HOLDERS
    requires r.jobs[id].state == Running ==> Held(r.jobs[id])
    ensures Inv(r)
  {
    OneRowKeys(db, r, id);
  }

  lemma WithoutLeaseFacts(leases: map<string, Lease>, id: JobId)
    ensures !HasLease(WithoutLease(leases, id), id)
    ensures forall x :: x != id ==> (HasLease(WithoutLease(leases, id), x) <==> HasLease(leases, x))
  {
    forall x | x != id && HasLease(leases, x) ensures HasLease(WithoutLease(leases, id), x) {
      var k :| k in leases && leases[k].jobId == x;
      assert k in WithoutLease(leases, id);
    }
  }

  /** A row update that drops the row's lease. */
  lemma DropLease(db: Db, r: Db, id: JobId)
    requires Inv(db) && OneRow(db, r, id) && r.leases == WithoutLease(db.leases, id)
    requires Free(r.jobs[id]) && r.jobs[id].state != Running
    ensures Inv(r)
  {
    OneRowKeys(db, r, id);
    WithoutLeaseFacts(db.leases, id);
  }

  lemma LeasedMonotone(before: map<string, Lease>, after: map<string, Lease>, x: JobId)
    requires forall k :: k in before ==> k in after && after[k].jobId == before[k].jobId
    requires HasLease(before, x)
    ensures HasLease(after, x)
  {
  }

  predicate WritesLease(db: Db, r: Db, id: JobId, key: string, l: Lease) {
    && OneRow(db, r, id) && r.leases == db.leases[key := l]
    && (if key in db.leases then db.leases[key].jobId == id else !Leased(db, id))
    && l.jobId == id && Mirrors(r.jobs[id], l) && r.jobs[id].state in HOLDERS
  }

  lemma WriteLeaseUnique(db: Db, r: Db, id: JobId, key: string, l: Lease)
    requires Inv(db) && WritesLease(db, r, id, key, l)
    ensures forall k :: k in r.leases && k != key ==>
      k in db.leases && r.leases[k] == db.leases[k] && r.leases[k].jobId != id
  {
  }

  lemma WriteLeaseFree(db: Db, r: Db, id: JobId, key: string, l: Lease, x: JobId)
    requires Inv(db) && WritesLease(db, r, id, key, l) && x in r.jobs && !Leased(r, x)
    ensures Free(r.jobs[x])
  {
    assert r.leases[key].jobId == id;
    assert x != id;
    if Leased(db, x) { LeasedMonotone(db.leases, r.leases, x); }
  }

  lemma WriteLeaseLeases(db: Db, r: Db, id: JobId, key: string, l: Lease)
    requires Inv(db) && WritesLease(db, r, id, key, l)
    ensures LeasesOk(r)
  {
    WriteLeaseUnique(db, r, id, key, l);
    forall x | x in r.jobs && !HasLease(r.leases, x) ensures Free(r.jobs[x]) { WriteLeaseFree(db, r, id, key, l, x); }
  }

  /** Writing one lease row together with the row that mirrors it. */
  lemma WriteLease(db: Db, r: Db, id: JobId, key: string, l: Lease)
    requires Inv(db) && WritesLease(db, r, id, key, l)
    ensures Inv(r)
  {
    OneRowKeys(db, r, id);
    WriteLeaseLeases(db, r, id, key, l);
  }

  lemma SameTables(db: Db, r: Db)
    requires Inv(db) && r.jobs == db.jobs && r.leases == db.leases
    ensures Inv(r)
  {
  }

  // ---- the shape of a reap --------------------------------------------------------------------------------

  function WithoutLeases(leases: map<string, Lease>, ids: set<JobId>): map<string, Lease> {
    map k | k in leases && leases[k].jobId !in ids :: leases[k]
  }

  function RecoveredRows(jobs: map<JobId, Job>, ids: set<JobId>, now: int): map<JobId, Job> {
    map id | id in jobs :: if id in ids then Recovered(jobs[id], now) else jobs[id]
  }

  /** What a reap of `ids` leaves behind, up to the order of the events. */
  predicate ReapShape(db: Db, ids: set<JobId>, now: int, r: Db) {
    r == db.(jobs := RecoveredRows(db.jobs, ids, now), leases := WithoutLeases(db.leases, ids), events := r.events)
  }

  lemma ReapOneShape(db: Db, mid: Db, ids: set<JobId>, id: JobId, now: int)
    requires ReapShape(db, ids, now, mid) && id in db.jobs && id !in ids
    ensures ReapShape(db, ids + {id}, now, ReapOne(mid, id, now))
  {
  }

  lemma IdsSplit(order: seq<JobId>, n: nat)
    requires NoDuplicates(order) && n + 1 == |order|
    ensures NoDuplicates(order[..n]) && order[n] !in Ids(order[..n]) && Ids(order) == Ids(order[..n]) + {order[n]}
  {
  }

  /** The order in which expired jobs are recovered only shows in the order of the events. */
  lemma {:induction false} ReapAllShape(db: Db, order: seq<JobId>, now: int)
    requires NoDuplicates(order) && Ids(order) <= db.jobs.Keys
    ensures ReapShape(db, Ids(order), now, ReapAll(db, order, now))
    decreases |order|
  {
    if order == [] {
      assert db.leases == WithoutLeases(db.leases, {});
      assert db.jobs == RecoveredRows(db.jobs, {}, now);
      assert Ids(order) == {};
    } else {
      var n := |order| - 1;
      IdsSplit(order, n);
      ReapAllShape(db, order[..n], now);
      assert order[n] in Ids(order);
      ReapOneShape(db, ReapAll(db, order[..n], now), Ids(order[..n]), order[n], now);
    }
  }

  // ---- preservation ---------------------------------------------------------------------------------------

  lemma RenewKeepsInv(db: Db, id: JobId, owner: string, seconds: int, now: int)
    requires Inv(db)
    ensures Inv(RenewLease(db, id, owner, seconds, now))
  {
    if !Renewable(db, id, owner, now) { return; }
    var r := RenewLease(db, id, owner, seconds, now);
    var key :|
      key in db.leases && db.leases[key].jobId == id && db.leases[key].owner == owner && db.leases[key].expiresAt > now;
    assert r.leases == db.leases[key := db.leases[key].(expiresAt := now + seconds)];
    WriteLease(db, r, id, key, r.leases[key]);
  }

  lemma ReapOneKeepsInv(db: Db, id: JobId, now: int)
    requires Inv(db)
    ensures Inv(ReapOne(db, id, now))
  {
    if id in db.jobs { DropLease(db, ReapOne(db, id, now), id); }
  }

  lemma {:induction false} ReapKeepsInv(db: Db, order: seq<JobId>, now: int)
    requires Inv(db)
    ensures Inv(ReapAll(db, order, now))
    decreases |order|
  {
    if order != [] {
      var n := |order| - 1;
      ReapKeepsInv(db, order[..n], now);
      ReapOneKeepsInv(ReapAll(db, order[..n], now), order[n], now);
    }
  }

  lemma TransitionKeepsInv(db: Db, id: JobId, m: Move, now: int)
    requires Inv(db) && LegalMove(m)
    ensures Inv(Transition(db, id, m, now))
  {
    if id in db.jobs && MoveAllowed(db.jobs[id].state, m.to) {
      if Releases(m) { DropLease(db, Transition(db, id, m, now), id); }
      else { KeepLease(db, Transition(db, id, m, now), id); }
    }
  }

  lemma CancelKeepsInv(db: Db, id: JobId, now: int)
    requires Inv(db) && id in db.jobs
    ensures Inv(Control(db, id, Cancel, now))
  {
    if db.jobs[id].state in ACTIVE { KeepLease(db, Control(db, id, Cancel, now), id); }
    else { DropLease(db, Control(db, id, Cancel, now), id); }
  }

  lemma PauseKeepsInv(db: Db, id: JobId, now: int)
    requires Inv(db) && id in db.jobs
    ensures Inv(Control(db, id, Pause, now))
  {
    if db.jobs[id].state != Queued { KeepLease(db, Control(db, id, Pause, now), id); }
    else { DropLease(db, Control(db, id, Pause, now), id); }
  }

  lemma RequeueKeepsInv(db: Db, id: JobId, command: Types.Command, now: int)
    requires Inv(db) && id in db.jobs && command in {Resume, Retry}
    ensures Inv(Control(db, id, command, now))
  {
    KeepLease(db, Requeued(db, id, now), id);
    SameTables(Requeued(db, id, now), Control(db, id, command, now));
  }

  lemma ControlKeepsInv(db: Db, id: JobId, command: Types.Command, now: int)
    requires Inv(db)
    ensures Inv(Control(db, id, command, now))
  {
    if id in db.jobs {
      match command
      case Unknown(_) =>
      case Cancel => CancelKeepsInv(db, id, now);
      case Pause => PauseKeepsInv(db, id, now);
      case Resume => RequeueKeepsInv(db, id, Resume, now);
      case Retry => RequeueKeepsInv(db, id, Retry, now);
    }
  }

  lemma RefreshKeepsInv(db: Db, id: JobId, s: Snapshot, r: Routing, b: string, k: string, now: int)
    requires Inv(db)
    ensures Inv(RefreshSnapshot(db, id, s, r, b, k, now))
  {
  }

  lemma AcceptKeepsInv(db: Db, id: JobId, s: Snapshot, now: int)
    requires Inv(db)
    ensures Inv(AcceptSnapshot(db, id, s, now))
  {
  }

  lemma ClaimKeepsInv(db: Db, id: JobId, args: ClaimArgs)
    requires Inv(db)
    ensures Inv(Claim(db, id, args))
  {
    if id in db.jobs && !Leased(db, id) && db.jobs[id].key !in db.leases {
      WriteLease(db, Claim(db, id, args), id, db.jobs[id].key, Lease(id, args.owner, args.now + args.seconds));
    }
  }

  lemma BeginKeepsInv(db: Db, id: JobId, c: Option<string>, now: int)
    requires Inv(db)
    ensures Inv(BeginAttempt(db, id, c, now))
  {
  }

  lemma UpdateKeepsInv(db: Db, id: JobId, p: Patch, now: int)
    requires Inv(db)
    ensures Inv(UpdateJob(db, id, p, now))
  {
  }

  lemma EnsureKeepsInv(db: Db, id: JobId, s: Snapshot, r: Routing, b: string, k: string, now: int)
    requires Inv(db)
    ensures Inv(EnsureJob(db, id, s, r, b, k, now))
  {
    if Known(db, s.repository, s.number) || id in db.jobs { return; }
    var d := EnsureJob(db, id, s, r, b, k, now);
    forall x | x in db.jobs ensures !SameIssue(d.jobs[x], d.jobs[id]) && !SameIssue(d.jobs[id], d.jobs[x]) {
      assert !IsFor(db.jobs[x], s.repository, s.number);
    }
    assert !Leased(db, id);
  }

  /** Every transaction keeps the table invariants, whoever calls it and whatever the clock shows. */
  lemma NextKeepsInv(db: Db, a: Action)
    requires Inv(db) && Enabled(db, a)
    ensures Inv(Next(db, a))
  {
    match a
    case Ensure(id, s, r, b, k, now) => EnsureKeepsInv(db, id, s, r, b, k, now);
    case Refresh(id, s, r, b, k, now) => RefreshKeepsInv(db, id, s, r, b, k, now);
    case Accept(id, s, now) => AcceptKeepsInv(db, id, s, now);
    case ClaimNext(args, choice) => if choice.Some? { ClaimKeepsInv(db, choice.value, args); }
    case Begin(id, c, now) => BeginKeepsInv(db, id, c, now);
    case Renew(id, o, secs, now) => RenewKeepsInv(db, id, o, secs, now);
    case Transit(id, m, now) => TransitionKeepsInv(db, id, m, now);
    case Update(id, p, now) => UpdateKeepsInv(db, id, p, now);
    case Command(id, c, now) => ControlKeepsInv(db, id, c, now);
    case Reap(scope, order, now) => ReapKeepsInv(db, order, now);
    case Backoff(p, secs, now) => SameTables(db, SetBackoff(db, p, secs, now));
    case Note(id, n, now) => SameTables(db, RecordEvent(db, id, n, now));
    case Deliver(d, _) => SameTables(db, RecordDelivery(db, d));
    case Lock(n, o, secs, now) => SameTables(db, db.(locks := AcquireLock(db.locks, n, o, secs, now)));
    case Unlock(n, o, _) => SameTables(db, db.(locks := ReleaseLock(db.locks, n, o)));
  }

  lemma {:induction false} RunKeepsInv(states: seq<Db>, actions: seq<Action>, i: nat)
    requires IsRun(states, actions) && i < |states|
    ensures Inv(states[i])
  {
    if i > 0 {
      RunKeepsInv(states, actions, i - 1);
      assert StepAt(states, actions, i - 1);
      NextKeepsInv(states[i - 1], actions[i - 1]);
    }
  }
}

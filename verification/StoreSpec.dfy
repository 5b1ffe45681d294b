/** What each store transaction does to the tables. A rejected call leaves the tables as they were. */
module StoreSpec {
  import opened Types
  import opened Text

  predicate HasLease(leases: map<string, Lease>, id: JobId) {
    exists k :: k in leases && leases[k].jobId == id
  }

  predicate Leased(db: Db, id: JobId) {
    HasLease(db.leases, id)
  }

  function Put(db: Db, job: Job): Db {
    db.(jobs := db.jobs[job.id := job])
  }

  function Append(db: Db, id: JobId, at: int, kind: EventKind): Db {
    db.(events := db.events + [Event(id, at, kind)])
  }

  function WithoutLease(leases: map<string, Lease>, id: JobId): map<string, Lease> {
    map k | k in leases && leases[k].jobId != id :: leases[k]
  }

  function Release(db: Db, id: JobId): Db {
    db.(leases := WithoutLease(db.leases, id))
  }

  function Unowned(job: Job): Job {
    job.(leaseOwner := None, leaseExpiresAt := None)
  }

  // ---- intake -------------------------------------------------------------------------------------------

  predicate IsFor(job: Job, repository: string, issue: int) {
    job.repository == repository && job.issue == issue
  }

  predicate Known(db: Db, repository: string, issue: int) {
    exists id :: id in db.jobs && IsFor(db.jobs[id], repository, issue)
  }

  function NewJob(id: JobId, snapshot: Snapshot, routing: Routing, branch: string, key: string, now: int): Job {
    Job(id, snapshot.repository, snapshot.number, snapshot, routing, Queued, 0, branch, key, None, None, None,
        "intake", "", None, None, now, now, false, false, false)
  }

  /** One job per repository and issue: a second intake changes nothing, and neither does a reused id. */
  function EnsureJob(
    db: Db, id: JobId, snapshot: Snapshot, routing: Routing, branch: string, key: string, now: int): Db
  {
    if Known(db, snapshot.repository, snapshot.number) || id in db.jobs then db
    else Append(Put(db, NewJob(id, snapshot, routing, branch, key, now)), id, now, Created)
  }

  predicate Refreshable(job: Job) {
    job.state == Queued && job.attempt == 0
  }

  function RefreshSnapshot(
    db: Db, id: JobId, snapshot: Snapshot, routing: Routing, branch: string, key: string, now: int): Db
  {
    if id !in db.jobs || !Refreshable(db.jobs[id]) then db
    else db.(jobs := db.jobs[id := db.jobs[id].(
      snapshot := snapshot, routing := routing, branch := branch, key := key, updatedAt := now)])
  }

  function AcceptSnapshot(db: Db, id: JobId, snapshot: Snapshot, now: int): Db {
    if id !in db.jobs || db.jobs[id].state != Queued then db
    else Append(
      db.(jobs := db.jobs[id := db.jobs[id].(snapshot := snapshot, updatedAt := now)]), id, now, SnapshotAccepted)
  }

  // ---- claiming -----------------------------------------------------------------------------------------

  /** The arguments of one claim. */
  datatype ClaimArgs = ClaimArgs(
    owner: string, seconds: int, globalLimit: int, providerLimits: map<string, int>, now: int)

  function LiveKeys(db: Db, now: int): set<string> {
    set k | k in db.leases && db.leases[k].expiresAt > now
  }

  function ProviderKeys(db: Db, provider: string, now: int): set<string> {
    set k | k in db.leases && db.leases[k].expiresAt > now && db.leases[k].jobId in db.jobs &&
            db.jobs[db.leases[k].jobId].routing.implementer == provider
  }

  predicate BackedOff(db: Db, provider: string, now: int) {
    provider in db.backoff && db.backoff[provider] > now
  }

  /** The rows the claim query returns. An expired lease still blocks its key. */
  predicate Selectable(db: Db, id: JobId, now: int) {
    && id in db.jobs
    && db.jobs[id].state == Queued
    && !db.jobs[id].cancel
    && !db.jobs[id].pause
    && !BackedOff(db, db.jobs[id].routing.implementer, now)
    && db.jobs[id].key !in db.leases
  }

  function Limit(limits: map<string, int>, provider: string): int {
    if provider in limits then limits[provider] else 1
  }

  predicate HasCapacity(db: Db, provider: string, args: ClaimArgs) {
    |ProviderKeys(db, provider, args.now)| < Limit(args.providerLimits, provider)
  }

  predicate Runnable(db: Db, id: JobId, args: ClaimArgs) {
    Selectable(db, id, args.now) && HasCapacity(db, db.jobs[id].routing.implementer, args)
  }

  predicate IsClaimOf(jobs: map<JobId, Job>, e: Event, repository: string) {
    e.kind == Claimed && e.jobId in jobs && jobs[e.jobId].repository == repository
  }

  /** The time of the repository's latest claim. */
  function LastClaim(jobs: map<JobId, Job>, events: seq<Event>, repository: string): (r: Option<int>)
    ensures r.None? <==> forall e :: e in events ==> !IsClaimOf(jobs, e, repository)
    ensures r.Some? ==> exists e :: e in events && IsClaimOf(jobs, e, repository) && e.at == r.value
    ensures r.Some? ==> forall e :: e in events && IsClaimOf(jobs, e, repository) ==> e.at <= r.value
  {
    if events == [] then None
    else
      var e := events[|events| - 1];
      var before := LastClaim(jobs, events[..|events| - 1], repository);
      assert events == events[..|events| - 1] + [e];
      if IsClaimOf(jobs, e, repository) && (before.None? || before.value < e.at) then Some(e.at) else before
  }

  /** What the claim query orders by: retry requests first, then the repository claimed longest ago (never
      claimed comes first), then the oldest update, then the oldest creation. */
  datatype Rank = Rank(retry: bool, lastClaim: Option<int>, updatedAt: int, createdAt: int)

  predicate Before(a: Rank, b: Rank) {
    if a.retry != b.retry then a.retry
    else if a.lastClaim != b.lastClaim then
      a.lastClaim.None? || (b.lastClaim.Some? && a.lastClaim.value < b.lastClaim.value)
    else if a.updatedAt != b.updatedAt then a.updatedAt < b.updatedAt
    else a.createdAt < b.createdAt
  }

  function RankOf(db: Db, id: JobId): Rank
    requires id in db.jobs
  {
    var j := db.jobs[id];
    Rank(j.retry, LastClaim(db.jobs, db.events, j.repository), j.updatedAt, j.createdAt)
  }

  /** A legal answer of a claim: nothing exactly when the global limit is reached or no job is runnable,
      otherwise a runnable job that no runnable job precedes. */
  predicate LegalChoice(db: Db, args: ClaimArgs, choice: Option<JobId>) {
    match choice
    case None => |LiveKeys(db, args.now)| >= args.globalLimit || forall id :: id in db.jobs ==> !Runnable(db, id, args)
    case Some(chosen) =>
      && |LiveKeys(db, args.now)| < args.globalLimit
      && Runnable(db, chosen, args)
      && forall id :: id in db.jobs && Runnable(db, id, args) ==> !Before(RankOf(db, id), RankOf(db, chosen))
  }

  /** The lease insert violates the one-lease-per-job constraint when the chosen job still holds a lease under
      another key; the transaction then rolls back. */
  function Claim(db: Db, id: JobId, args: ClaimArgs): Db {
    if id !in db.jobs || Leased(db, id) || db.jobs[id].key in db.leases then db
    else
      var j := db.jobs[id];
      var expires := args.now + args.seconds;
      var job := j.(state := Running, leaseOwner := Some(args.owner), leaseExpiresAt := Some(expires),
                    updatedAt := args.now, phase := "preflight");
      Append(db.(leases := db.leases[j.key := Lease(id, args.owner, expires)], jobs := db.jobs[id := job]),
             id, args.now, Claimed)
  }

  // ---- a claimed job --------------------------------------------------------------------------------------

  function Coalesce(a: Option<string>, b: Option<string>): Option<string> {
    if a.Some? then a else b
  }

  function BeginAttempt(db: Db, id: JobId, conversation: Option<string>, now: int): Db {
    if id !in db.jobs || db.jobs[id].state != Running then db
    else
      var j := db.jobs[id];
      var job := j.(attempt := j.attempt + 1, conversation := Coalesce(conversation, j.conversation),
                    phase := "implementation", retry := false, updatedAt := now);
      Append(db.(jobs := db.jobs[id := job]), id, now, AttemptStarted(j.attempt + 1))
  }

  predicate Renewable(db: Db, id: JobId, owner: string, now: int) {
    exists k ::
      k in db.leases && db.leases[k].jobId == id && db.leases[k].owner == owner && db.leases[k].expiresAt > now
  }

  function RenewLease(db: Db, id: JobId, owner: string, seconds: int, now: int): Db {
    if !Renewable(db, id, owner, now) then db
    else
      var leases := map k | k in db.leases ::
        var l := db.leases[k];
        if l.jobId == id && l.owner == owner && l.expiresAt > now then l.(expiresAt := now + seconds) else l;
      var jobs := if id in db.jobs
        then db.jobs[id := db.jobs[id].(leaseExpiresAt := Some(now + seconds), updatedAt := now)] else db.jobs;
      db.(leases := leases, jobs := jobs)
  }

  /** The arguments of a transition; `notes` are the message, reason and summary texts kept in the event. */
  datatype Move = Move(
    to: JobState, phase: Option<string>, notes: seq<string>, validation: Option<string>, release: Option<bool>)

  predicate MoveAllowed(from: JobState, to: JobState) {
    to == from || to in Allowed(from)
  }

  predicate Releases(m: Move) {
    if m.release.Some? then m.release.value else m.to !in ACTIVE
  }

  function Moving(j: Job, m: Move, now: int): Job {
    j.(state := m.to, updatedAt := now,
       phase := if m.phase.Some? then m.phase.value else j.phase,
       validation := if m.validation.Some? then m.validation.value else j.validation,
       leaseOwner := if Releases(m) then None else j.leaseOwner,
       leaseExpiresAt := if Releases(m) then None else j.leaseExpiresAt)
  }

  function Transition(db: Db, id: JobId, m: Move, now: int): Db {
    if id !in db.jobs || !MoveAllowed(db.jobs[id].state, m.to) then db
    else
      var j := db.jobs[id];
      var db1 := if Releases(m) then Release(db, id) else db;
      Append(db1.(jobs := db1.jobs[id := Moving(j, m, now)]), id, now, Moved(j.state, m.to, m.phase, m.notes))
  }

  /** The columns a row update may set; an absent value leaves the column alone. */
  datatype Patch = Patch(
    conversation: Option<string>, reviewConversation: Option<string>, prNumber: Option<int>,
    phase: Option<string>, validation: Option<string>, routing: Option<Routing>, key: Option<string>,
    retry: Option<bool>, snapshot: Option<Snapshot>)

  const NO_PATCH := Patch(None, None, None, None, None, None, None, None, None)

  function Or<T>(a: Option<T>, b: T): T {
    if a.Some? then a.value else b
  }

  function Patched(j: Job, p: Patch, now: int): Job {
    j.(conversation := Coalesce(p.conversation, j.conversation),
       reviewConversation := Coalesce(p.reviewConversation, j.reviewConversation),
       prNumber := if p.prNumber.Some? then p.prNumber else j.prNumber,
       phase := Or(p.phase, j.phase), validation := Or(p.validation, j.validation),
       routing := Or(p.routing, j.routing), key := Or(p.key, j.key), retry := Or(p.retry, j.retry),
       snapshot := Or(p.snapshot, j.snapshot), updatedAt := now)
  }

  function UpdateJob(db: Db, id: JobId, p: Patch, now: int): Db {
    if id !in db.jobs then db else db.(jobs := db.jobs[id := Patched(db.jobs[id], p, now)])
  }

  // ---- operator commands ----------------------------------------------------------------------------------

  predicate Mentions(e: Event, needle: string) {
    e.kind.Moved? &&
    ((e.kind.phase.Some? && Contains(Lower(e.kind.phase.value), needle)) ||
     exists n :: n in e.kind.notes && Contains(Lower(n), needle))
  }

  predicate AttemptEventOf(e: Event, id: JobId) {
    e.jobId == id && e.kind.AttemptStarted?
  }

  predicate HasAttemptEvents(db: Db, id: JobId) {
    exists e :: e in db.events && AttemptEventOf(e, id)
  }

  predicate HasMention(db: Db, id: JobId, needle: string) {
    exists e :: e in db.events && e.jobId == id && Mentions(e, needle)
  }

  /** Counters polluted before any conversation existed are reset by an explicit requeue. */
  predicate ResetsAttempts(db: Db, id: JobId)
    requires id in db.jobs
  {
    var j := db.jobs[id];
    j.conversation.None? && j.prNumber.None? && j.attempt > 0 &&
    ((!HasAttemptEvents(db, id) && HasMention(db, id, "setup-failed")) ||
     HasMention(db, id, "provider-tool-retry") || HasMention(db, id, "provider-tool-failure"))
  }

  function RequeuedJob(j: Job, reset: bool, now: int): Job {
    j.(state := Queued, phase := "explicit-requeue", retry := true, cancel := false, pause := false,
       attempt := if reset then 0 else j.attempt, updatedAt := now)
  }

  predicate Requeueable(db: Db, id: JobId)
    requires id in db.jobs
  {
    var s := db.jobs[id].state;
    s in {NeedsGuidance, Blocked, Failed, Canceled, PrOpen} || (s == Queued && ResetsAttempts(db, id))
  }

  function CancelledRow(j: Job, now: int): Job {
    var flagged := j.(cancel := true, updatedAt := now);
    if j.state in ACTIVE then flagged else Unowned(flagged).(state := Canceled, phase := "canceled")
  }

  function Cancelled(db: Db, id: JobId, now: int): Db
    requires id in db.jobs
  {
    var kept := if db.jobs[id].state in ACTIVE then db else Release(db, id);
    kept.(jobs := db.jobs[id := CancelledRow(db.jobs[id], now)])
  }

  function Paused(db: Db, id: JobId, now: int): Db
    requires id in db.jobs
  {
    var j := db.jobs[id].(pause := true, updatedAt := now);
    if j.state != Queued then db.(jobs := db.jobs[id := j])
    else Release(db, id).(jobs := db.jobs[id := Unowned(j).(state := NeedsGuidance, phase := "paused")])
  }

  function Requeued(db: Db, id: JobId, now: int): Db
    requires id in db.jobs
  {
    if !Requeueable(db, id) then db
    else db.(jobs := db.jobs[id := RequeuedJob(db.jobs[id], ResetsAttempts(db, id), now)])
  }

  /** The effect of a command on the row it names. An unknown command is rejected. */
  function Control(db: Db, id: JobId, command: Command, now: int): Db {
    if id !in db.jobs then db
    else match command
      case Cancel => Append(Cancelled(db, id, now), id, now, Controlled(command, false))
      case Pause => Append(Paused(db, id, now), id, now, Controlled(command, false))
      case Resume => Append(Requeued(db, id, now), id, now, Controlled(command, ResetsAttempts(db, id)))
      case Retry => Append(Requeued(db, id, now), id, now, Controlled(command, ResetsAttempts(db, id)))
      case Unknown(_) => db
  }

  // ---- lease recovery -------------------------------------------------------------------------------------

  predicate ExpiredLease(db: Db, id: JobId, now: int) {
    exists k :: k in db.leases && db.leases[k].jobId == id && db.leases[k].expiresAt <= now
  }

  /** The jobs a reap call selects; `scope` restricts it to given jobs. */
  function Reapable(db: Db, scope: Option<set<JobId>>, now: int): set<JobId> {
    set id | id in db.jobs && ExpiredLease(db, id, now) && (scope.Some? ==> id in scope.value)
  }

  function Recovered(j: Job, now: int): Job {
    Unowned(j).(updatedAt := now,
      state := if j.cancel then Canceled else if j.pause then NeedsGuidance
               else if j.state == Reviewing then PrOpen else Queued,
      phase := if j.cancel then "canceled" else if j.pause then "paused" else "recovered-expired-lease")
  }

  function ReapOne(db: Db, id: JobId, now: int): Db {
    if id !in db.jobs then db
    else Append(Release(db, id).(jobs := db.jobs[id := Recovered(db.jobs[id], now)]), id, now, LeaseExpired)
  }

  /** Recover the jobs of `order`, one after the other. */
  function ReapAll(db: Db, order: seq<JobId>, now: int): Db {
    if order == [] then db
    else ReapOne(ReapAll(db, order[..|order| - 1], now), order[|order| - 1], now)
  }

  predicate NoDuplicates<T(==)>(s: seq<T>) {
    forall i, j :: 0 <= i < j < |s| ==> s[i] != s[j]
  }

  function Ids(order: seq<JobId>): set<JobId> {
    set id | id in order
  }

  /** `order` lists exactly the selected jobs, each once. */
  predicate LegalOrder(db: Db, scope: Option<set<JobId>>, order: seq<JobId>, now: int) {
    NoDuplicates(order) && Ids(order) == Reapable(db, scope, now)
  }

  // ---- backoff, events, deliveries, operation locks ---------------------------------------------------------

  function SetBackoff(db: Db, provider: string, seconds: int, now: int): Db {
    db.(backoff := db.backoff[provider := now + seconds])
  }

  /** Foreign keys are on: an event for an unknown job is rejected. */
  function RecordEvent(db: Db, id: JobId, name: string, now: int): Db {
    if id !in db.jobs then db else Append(db, id, now, Noted(name))
  }

  function RecordDelivery(db: Db, delivery: string): Db {
    db.(deliveries := db.deliveries + {delivery})
  }

  function LiveLocks(locks: map<string, Lock>, now: int): map<string, Lock> {
    map n | n in locks && locks[n].expiresAt > now :: locks[n]
  }

  function AcquireLock(
    locks: map<string, Lock>, name: string, owner: string, seconds: int, now: int): map<string, Lock> {
    var live := LiveLocks(locks, now);
    if name in live then live else live[name := Lock(owner, now + seconds)]
  }

  function ReleaseLock(locks: map<string, Lock>, name: string, owner: string): map<string, Lock> {
    if name in locks && locks[name].owner == owner then locks - {name} else locks
  }
}

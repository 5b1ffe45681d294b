/** Store transactions as actions, and runs of any processes over them. Every transaction is one atomic step, so
    an interleaving of processes is a sequence of actions. */
module StoreActions {
  import opened Types
  import opened StoreSpec

  datatype Action =
    | Ensure(id: JobId, snapshot: Snapshot, routing: Routing, branch: string, key: string, now: int)
    | Refresh(id: JobId, snapshot: Snapshot, routing: Routing, branch: string, key: string, now: int)
    | Accept(id: JobId, snapshot: Snapshot, now: int)
    | ClaimNext(args: ClaimArgs, choice: Option<JobId>)
    | Begin(id: JobId, conversation: Option<string>, now: int)
    | Renew(id: JobId, owner: string, seconds: int, now: int)
    | Transit(id: JobId, move: Move, now: int)
    | Update(id: JobId, patch: Patch, now: int)
    | Command(id: JobId, command: Types.Command, now: int)
    | Reap(scope: Option<set<JobId>>, order: seq<JobId>, now: int)
    | Backoff(provider: string, seconds: int, now: int)
    | Note(id: JobId, name: string, now: int)
    | Deliver(delivery: string, now: int)
    | Lock(name: string, owner: string, seconds: int, now: int)
    | Unlock(name: string, owner: string, now: int)
  {
    /** The clock reading the transaction uses. */
    function Time(): int {
      if ClaimNext? then args.now else now
    }
  }

  predicate LegalMove(m: Move) {
    m.to != Running && (m.release == Some(false) ==> m.to in {PrOpen, Reviewing})
  }

  /** What the callers guarantee, and the answers the database may give. Transitions never name Running, keep
      the lease only for PrOpen and Reviewing, and no row update carries a snapshot. */
  predicate Enabled(db: Db, a: Action) {
    match a
    case ClaimNext(args, choice) => LegalChoice(db, args, choice)
    case Transit(_, m, _) => LegalMove(m)
    case Update(_, p, _) => p.snapshot.None?
    case Reap(scope, order, now) => LegalOrder(db, scope, order, now)
    case _ => true
  }

  /** The tables after one transaction. */
  function Next(db: Db, a: Action): Db {
    match a
    case Ensure(id, s, r, b, k, now) => EnsureJob(db, id, s, r, b, k, now)
    case Refresh(id, s, r, b, k, now) => RefreshSnapshot(db, id, s, r, b, k, now)
    case Accept(id, s, now) => AcceptSnapshot(db, id, s, now)
    case ClaimNext(args, choice) => if choice.Some? then Claim(db, choice.value, args) else db
    case Begin(id, c, now) => BeginAttempt(db, id, c, now)
    case Renew(id, o, secs, now) => RenewLease(db, id, o, secs, now)
    case Transit(id, m, now) => Transition(db, id, m, now)
    case Update(id, p, now) => UpdateJob(db, id, p, now)
    case Command(id, c, now) => Control(db, id, c, now)
    case Reap(_, order, now) => ReapAll(db, order, now)
    case Backoff(p, secs, now) => SetBackoff(db, p, secs, now)
    case Note(id, n, now) => RecordEvent(db, id, n, now)
    case Deliver(d, _) => RecordDelivery(db, d)
    case Lock(n, o, secs, now) => db.(locks := AcquireLock(db.locks, n, o, secs, now))
    case Unlock(n, o, _) => db.(locks := ReleaseLock(db.locks, n, o))
  }

  ghost predicate StepAt(states: seq<Db>, actions: seq<Action>, i: int)
    requires 0 <= i < |actions| && |states| == |actions| + 1
  {
    Enabled(states[i], actions[i]) && states[i + 1] == Next(states[i], actions[i])
  }

  /** A run from empty tables: any number of processes, in any order, with any clock readings. */
  ghost predicate IsRun(states: seq<Db>, actions: seq<Action>) {
    && |states| == |actions| + 1
    && states[0] == EMPTY
    && forall i :: 0 <= i < |actions| ==> StepAt(states, actions, i)
  }
}

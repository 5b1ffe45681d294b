/** What one transaction may do to a row, to the leases and to the event log. */
module StoreSteps {
  import opened Types
  import opened StoreSpec
  import opened StoreActions
  import opened StoreInvariant

  // ---- rows -------------------------------------------------------------------------------------------------

  /** When a transaction takes a row off the transition table: a reap of a paused, uncanceled review or open pull
      request, which leaves it in need of guidance, and a cancel of a finished job. */
  predicate OffTable(a: Action, j: Job) {
    match a
    case Reap(_, order, _) => j.id in order && j.pause && !j.cancel && j.state in {Reviewing, PrOpen}
    case Command(id, c, _) => id == j.id && c == Cancel && j.state == Done
    case _ => false
  }

  predicate IsRequeue(a: Action, id: JobId) {
    a.Command? && a.id == id && a.command in {Resume, Retry}
  }

  predicate Halted(j: Job) {
    j.pause || j.cancel
  }

  /** The counter goes up by one when an attempt begins, or back to zero for a job without a conversation. */
  predicate AttemptOk(a: Action, j: Job, j': Job) {
    || j'.attempt == j.attempt
    || (a.Begin? && a.id == j.id && j.state == Running && j'.attempt == j.attempt + 1 &&
        j'.conversation == Coalesce(a.conversation, j.conversation))
    || (IsRequeue(a, j.id) && j.conversation.None? && j.prNumber.None? && j'.attempt == 0)
  }

  /** The transactions that write a job's state. */
  predicate WritesState(a: Action, id: JobId) {
    match a
    case ClaimNext(_, choice) => choice == Some(id)
    case Transit(x, _, _) => x == id
    case Command(x, _, _) => x == id
    case Reap(_, order, _) => id in order
    case _ => false
  }

  /** The transactions that may write a job's concurrency key, and the key they write. */
  predicate WritesKey(a: Action, j: Job, key: string) {
    match a
    case Update(id, p, _) => id == j.id && p.key == Some(key)
    case Refresh(id, _, _, _, k, _) => id == j.id && k == key && Refreshable(j)
    case _ => false
  }

  /** The claim of a queued row that nobody stopped. */
  predicate Starts(a: Action, j: Job) {
    a.ClaimNext? && a.choice == Some(j.id) && j.state == Queued && !Halted(j)
  }

  /** What a command makes of the row it names. A cancel stops at once unless the job is active, and a pause a queued
      one; a resume or retry queues every job that is not active and not done, and one that did not wait in the queue
      before is a retry request without stop flags. */
  predicate CommandOk(c: Types.Command, j: Job, j': Job) {
    match c
    case Cancel =>
      j'.cancel && j'.pause == j.pause && j'.state == (if j.state in {Running, Reviewing} then j.state else Canceled) &&
      (j'.state == Canceled ==> Free(j'))
    case Pause =>
      j'.pause && j'.cancel == j.cancel && j'.state == (if j.state == Queued then NeedsGuidance else j.state) &&
      (j.state == Queued ==> Free(j'))
    case Unknown(_) => j' == j
    case _ =>
      && (j'.state == Queued <==> j.state !in {Running, Reviewing, Done})
      && (j'.state != Queued ==> j' == j) && (j'.leaseOwner, j'.leaseExpiresAt) == (j.leaseOwner, j.leaseExpiresAt)
      && (j.state != Queued && j'.state == Queued ==> j'.retry && !Halted(j'))
  }

  /** Where a recovered job goes: an operator's cancel wins over a pause, and a pause over its interrupted work. */
  predicate ReapOk(j: Job, j': Job) {
    && Free(j') && (j'.state == Canceled <==> j.cancel) && (j'.state == NeedsGuidance <==> j.pause && !j.cancel)
    && (j'.state == PrOpen <==> !Halted(j) && j.state == Reviewing)
    && (j'.state == Queued <==> !Halted(j) && j.state != Reviewing)
  }

  /** The transactions that may write a job's routing, and what they write. */
  predicate WritesRouting(a: Action, j: Job, routing: Routing) {
    match a
    case Update(id, p, _) => id == j.id && p.routing == Some(routing)
    case Refresh(id, _, r, _, _, _) => id == j.id && r == routing && Refreshable(j)
    case _ => false
  }

  /** The transactions that may raise or answer a retry request. */
  predicate WritesRetry(a: Action, j: Job, retry: bool) {
    match a
    case Command(id, _, _) => IsRequeue(a, j.id) && retry
    case Begin(id, _, _) => id == j.id && !retry
    case Update(id, p, _) => id == j.id && p.retry == Some(retry)
    case _ => false
  }

  /** Row `j` may become `j'` under `a`. */
  predicate RowStep(a: Action, j: Job, j': Job) {
    && j'.id == j.id && SameIssue(j', j) && j'.createdAt == j.createdAt
    && (MoveAllowed(j.state, j'.state) <==> !OffTable(a, j)) && (j'.state != j.state ==> WritesState(a, j.id))
    && (j'.state == Running && j.state != Running ==> Starts(a, j) && j'.snapshot == j.snapshot)
    && (j'.snapshot != j.snapshot ==> j.state == Queued)
    && (j'.branch != j.branch ==> j.state == Queued && j.attempt == 0)
    && AttemptOk(a, j, j') && (j'.key != j.key ==> WritesKey(a, j, j'.key))
    && (j.conversation.Some? ==> j'.conversation.Some?)
    && ((j'.pause, j'.cancel) != (j.pause, j.cancel) ==> a.Command? && a.id == j.id)
    && ((j.pause && !j'.pause) || (j.cancel && !j'.cancel) ==> IsRequeue(a, j.id))
    && (a.Command? && a.id == j.id ==> CommandOk(a.command, j, j')) && (a.Reap? && j.id in a.order ==> ReapOk(j, j'))
    && (j'.routing != j.routing ==> WritesRouting(a, j, j'.routing))
    && (j'.retry != j.retry ==> WritesRetry(a, j, j'.retry))
    && (a.Transit? && a.id == j.id ==>
          if MoveAllowed(j.state, a.move.to) then j'.state == a.move.to else j' == j)
  }

  predicate FreshRow(a: Action, j: Job) {
    a.Ensure? && j.state == Queued && j.attempt == 0 && j.conversation.None? && !Halted(j)
  }

  predicate Rows(a: Action, db: Db, r: Db) {
    && (forall id :: id in db.jobs ==> id in r.jobs && RowStep(a, db.jobs[id], r.jobs[id]))
    && (forall id :: id in r.jobs && id !in db.jobs ==> FreshRow(a, r.jobs[id]))
  }

  lemma OneRowStep(a: Action, db: Db, r: Db, id: JobId)
    requires OneRow(db, r, id) && RowStep(a, db.jobs[id], r.jobs[id])
    requires forall x :: x in db.jobs && x != id ==> !WritesState(a, db.jobs[x].id)
    ensures Rows(a, db, r)
  {
  }

  lemma SameRows(a: Action, db: Db, r: Db)
    requires r.jobs == db.jobs
    requires (a.Command? && a.command.Unknown?) || forall x :: x in db.jobs ==> !WritesState(a, db.jobs[x].id)
    ensures Rows(a, db, r)
  {
  }

  lemma CancelStep(j: Job, now: int)
    ensures RowStep(Command(j.id, Cancel, now), j, CancelledRow(j, now))
  {
  }

  lemma CancelRows(db: Db, id: JobId, now: int)
    requires KeysOk(db) && id in db.jobs
    ensures Rows(Command(id, Cancel, now), db, Control(db, id, Cancel, now))
  {
    CancelStep(db.jobs[id], now);
    hide RowStep;
    OneRowStep(Command(id, Cancel, now), db, Control(db, id, Cancel, now), id);
  }

  lemma PauseStep(j: Job, now: int)
    ensures var p := j.(pause := true, updatedAt := now);
      RowStep(Command(j.id, Pause, now), j,
              if j.state != Queued then p else Unowned(p).(state := NeedsGuidance, phase := "paused"))
  {
  }

  lemma PauseRows(db: Db, id: JobId, now: int)
    requires KeysOk(db) && id in db.jobs
    ensures Rows(Command(id, Pause, now), db, Control(db, id, Pause, now))
  {
    PauseStep(db.jobs[id], now);
    hide RowStep;
    OneRowStep(Command(id, Pause, now), db, Control(db, id, Pause, now), id);
  }

  lemma RequeueRows(db: Db, id: JobId, c: Types.Command, now: int)
    requires KeysOk(db) && id in db.jobs && c in {Resume, Retry}
    ensures Rows(Command(id, c, now), db, Control(db, id, c, now))
  {
    var a := Command(id, c, now);
    var r := Requeued(db, id, now);
    assert Control(db, id, c, now).jobs == r.jobs;
    if Requeueable(db, id) {
      var reset := ResetsAttempts(db, id);
      assert RowStep(a, db.jobs[id], RequeuedJob(db.jobs[id], reset, now));
    }
    OneRowStep(a, db, r, id);
  }

  lemma RecoveredStep(a: Action, j: Job)
    requires a.Reap? && j.id in a.order && j.state in HOLDERS
    ensures RowStep(a, j, Recovered(j, a.now))
  {
  }

  lemma ReapedRow(db: Db, a: Action, id: JobId)
    requires Inv(db) && a.Reap? && id in Reapable(db, a.scope, a.now) && id in a.order
    ensures RowStep(a, db.jobs[id], Recovered(db.jobs[id], a.now))
  {
    assert Leased(db, id);
    LeasedIffHeld(db, id);
    RecoveredStep(a, db.jobs[id]);
  }

  lemma ReapRows(db: Db, scope: Option<set<JobId>>, order: seq<JobId>, now: int)
    requires Inv(db) && LegalOrder(db, scope, order, now)
    ensures Rows(Reap(scope, order, now), db, ReapAll(db, order, now))
  {
    var a := Reap(scope, order, now);
    var r := ReapAll(db, order, now);
    ReapAllShape(db, order, now);
    forall id | id in db.jobs ensures id in r.jobs && RowStep(a, db.jobs[id], r.jobs[id]) {
      if id in Ids(order) { ReapedRow(db, a, id); }
    }
  }

  lemma RefreshRows(db: Db, id: JobId, s: Snapshot, rt: Routing, b: string, k: string, now: int)
    requires KeysOk(db)
    ensures Rows(Refresh(id, s, rt, b, k, now), db, RefreshSnapshot(db, id, s, rt, b, k, now))
  {
    if id in db.jobs && Refreshable(db.jobs[id]) {
      assert RowStep(Refresh(id, s, rt, b, k, now), db.jobs[id], RefreshSnapshot(db, id, s, rt, b, k, now).jobs[id]);
      OneRowStep(Refresh(id, s, rt, b, k, now), db, RefreshSnapshot(db, id, s, rt, b, k, now), id);
    }
  }

  lemma AcceptRows(db: Db, id: JobId, s: Snapshot, now: int)
    requires KeysOk(db)
    ensures Rows(Accept(id, s, now), db, AcceptSnapshot(db, id, s, now))
  {
    if id in db.jobs && db.jobs[id].state == Queued {
      assert RowStep(Accept(id, s, now), db.jobs[id], db.jobs[id].(snapshot := s, updatedAt := now));
      OneRowStep(Accept(id, s, now), db, AcceptSnapshot(db, id, s, now), id);
    }
  }

  lemma BeginStep(j: Job, c: Option<string>, now: int)
    requires j.state == Running
    ensures RowStep(Begin(j.id, c, now), j,
                    j.(attempt := j.attempt + 1, conversation := Coalesce(c, j.conversation), phase := "implementation",
                       retry := false, updatedAt := now))
  {
  }

  lemma BeginRows(db: Db, id: JobId, c: Option<string>, now: int)
    requires KeysOk(db)
    ensures Rows(Begin(id, c, now), db, BeginAttempt(db, id, c, now))
  {
    if id in db.jobs && db.jobs[id].state == Running {
      BeginStep(db.jobs[id], c, now);
      hide RowStep;
      OneRowStep(Begin(id, c, now), db, BeginAttempt(db, id, c, now), id);
    } else {
      SameRows(Begin(id, c, now), db, BeginAttempt(db, id, c, now));
    }
  }

  lemma UpdateRows(db: Db, id: JobId, p: Patch, now: int)
    requires KeysOk(db) && p.snapshot.None?
    ensures Rows(Update(id, p, now), db, UpdateJob(db, id, p, now))
  {
    if id in db.jobs {
      OneRowStep(Update(id, p, now), db, UpdateJob(db, id, p, now), id);
    }
  }

  lemma TransitRows(db: Db, id: JobId, m: Move, now: int)
    requires KeysOk(db) && LegalMove(m)
    ensures Rows(Transit(id, m, now), db, Transition(db, id, m, now))
  {
    if id in db.jobs && MoveAllowed(db.jobs[id].state, m.to) {
      assert RowStep(Transit(id, m, now), db.jobs[id], Moving(db.jobs[id], m, now));
      OneRowStep(Transit(id, m, now), db, Transition(db, id, m, now), id);
    }
  }

  lemma RenewRows(db: Db, id: JobId, o: string, secs: int, now: int)
    requires KeysOk(db)
    ensures Rows(Renew(id, o, secs, now), db, RenewLease(db, id, o, secs, now))
  {
    var r := RenewLease(db, id, o, secs, now);
    if id in db.jobs && Renewable(db, id, o, now) {
      RenewStep(db.jobs[id], o, secs, now);
      hide Renewable, RowStep;
      OneRowStep(Renew(id, o, secs, now), db, r, id);
    } else {
      SameRows(Renew(id, o, secs, now), db, r);
    }
  }

  lemma RenewStep(j: Job, o: string, secs: int, now: int)
    ensures RowStep(Renew(j.id, o, secs, now), j, j.(leaseExpiresAt := Some(now + secs), updatedAt := now))
  {
  }

  lemma ClaimRows(db: Db, id: JobId, args: ClaimArgs)
    requires KeysOk(db) && Selectable(db, id, args.now)
    ensures Rows(ClaimNext(args, Some(id)), db, Claim(db, id, args))
  {
    if !Leased(db, id) {
      OneRowStep(ClaimNext(args, Some(id)), db, Claim(db, id, args), id);
    }
  }

  lemma EnsureRows(db: Db, id: JobId, s: Snapshot, rt: Routing, b: string, k: string, now: int)
    ensures Rows(Ensure(id, s, rt, b, k, now), db, EnsureJob(db, id, s, rt, b, k, now))
  {
  }

  /** Every transaction changes rows only within `RowStep`, and only an intake adds a row. */
  lemma NextRows(db: Db, a: Action)
    requires Inv(db) && Enabled(db, a)
    ensures Rows(a, db, Next(db, a))
  {
    match a
    case Ensure(id, s, rt, b, k, now) => EnsureRows(db, id, s, rt, b, k, now);
    case Refresh(id, s, r, b, k, now) => RefreshRows(db, id, s, r, b, k, now);
    case Accept(id, s, now) => AcceptRows(db, id, s, now);
    case ClaimNext(args, choice) =>
      if choice.Some? { ClaimRows(db, choice.value, args); } else { SameRows(a, db, db); }
    case Begin(id, c, now) => BeginRows(db, id, c, now);
    case Renew(id, o, secs, now) => RenewRows(db, id, o, secs, now);
    case Transit(id, m, now) => TransitRows(db, id, m, now);
    case Update(id, p, now) => UpdateRows(db, id, p, now);
    case Command(id, c, now) =>
      if id !in db.jobs || c.Unknown? { SameRows(a, db, Control(db, id, c, now)); }
      else if c == Cancel { CancelRows(db, id, now); }
      else if c == Pause { PauseRows(db, id, now); }
      else { RequeueRows(db, id, c, now); }
    case Reap(scope, order, now) => ReapRows(db, scope, order, now);
    case _ => SameRows(a, db, Next(db, a));
  }

  // ---- leases -----------------------------------------------------------------------------------------------

  /** A lease row is kept as it is, or renewed while it is unexpired. */
  predicate KeptLease(a: Action, db: Db, r: Db, key: string) {
    && key in db.leases && key in r.leases
    && (r.leases[key] == db.leases[key] ||
        (a.Renew? && db.leases[key].expiresAt > a.now &&
            r.leases[key] == db.leases[key].(expiresAt := a.now + a.seconds)))
  }

  /** A lease row is new: a claim inserted it under the free key of the chosen row. */
  predicate NewLease(a: Action, db: Db, r: Db, key: string) {
    && key in r.leases && key !in db.leases && a.ClaimNext? && a.choice.Some? && a.choice.value in db.jobs
    && key == db.jobs[a.choice.value].key && r.leases[key].jobId == a.choice.value
    && |Unexpired(db, a.args.now)| < a.args.globalLimit
    && var provider := db.jobs[a.choice.value].routing.implementer;
       |UnexpiredOf(db, provider, a.args.now)| < Allowance(a.args, provider)
  }

  predicate Leases(a: Action, db: Db, r: Db) {
    && (forall k :: k in r.leases ==> KeptLease(a, db, r, k) || NewLease(a, db, r, k))
    && (forall k :: k in db.leases && k !in r.leases ==>
          db.leases[k].jobId in r.jobs && r.jobs[db.leases[k].jobId].state != Running)
  }

  lemma ReapLeases(db: Db, scope: Option<set<JobId>>, order: seq<JobId>, now: int)
    requires Inv(db) && LegalOrder(db, scope, order, now)
    ensures Leases(Reap(scope, order, now), db, ReapAll(db, order, now))
  {
    ReapAllShape(db, order, now);
  }

  lemma SameLeases(a: Action, db: Db, r: Db)
    requires r.leases == db.leases
    ensures Leases(a, db, r)
  {
  }

  lemma ControlLeases(db: Db, id: JobId, c: Types.Command, now: int)
    requires Inv(db) && id in db.jobs && c in {Cancel, Pause}
    ensures Leases(Command(id, c, now), db, Control(db, id, c, now))
  {
  }

  lemma TransitLeases(db: Db, id: JobId, m: Move, now: int)
    requires Inv(db) && LegalMove(m)
    ensures Leases(Transit(id, m, now), db, Transition(db, id, m, now))
  {
  }

  lemma RenewLeases(db: Db, id: JobId, o: string, secs: int, now: int)
    requires Inv(db)
    ensures Leases(Renew(id, o, secs, now), db, RenewLease(db, id, o, secs, now))
  {
  }

  /** A legal claim finds room below both limits. */
  lemma LegalWithin(db: Db, id: JobId, args: ClaimArgs)
    requires LegalChoice(db, args, Some(id))
    ensures Selectable(db, id, args.now) && |Unexpired(db, args.now)| < args.globalLimit
    ensures var provider := db.jobs[id].routing.implementer;
      |UnexpiredOf(db, provider, args.now)| < Allowance(args, provider)
  {
    assert Unexpired(db, args.now) == LiveKeys(db, args.now);
    assert UnexpiredOf(db, db.jobs[id].routing.implementer, args.now) ==
      ProviderKeys(db, db.jobs[id].routing.implementer, args.now);
  }

  lemma ClaimLeases(db: Db, id: JobId, args: ClaimArgs)
    requires Inv(db) && LegalChoice(db, args, Some(id))
    ensures Leases(ClaimNext(args, Some(id)), db, Claim(db, id, args))
  {
    LegalWithin(db, id, args);
    hide LegalChoice, HasCapacity;
  }

  /** Every transaction changes leases only within `Leases`; a running job keeps its lease. */
  lemma NextLeases(db: Db, a: Action)
    requires Inv(db) && Enabled(db, a)
    ensures Leases(a, db, Next(db, a))
  {
    match a
    case Reap(scope, order, now) => ReapLeases(db, scope, order, now);
    case ClaimNext(args, choice) =>
      if choice.Some? { ClaimLeases(db, choice.value, args); } else { SameLeases(a, db, db); }
    case Command(id, c, now) =>
      if id in db.jobs && c in {Cancel, Pause} { ControlLeases(db, id, c, now); }
        else { SameLeases(a, db, Control(db, id, c, now)); }
    case Transit(id, m, now) => TransitLeases(db, id, m, now);
    case Renew(id, o, secs, now) => RenewLeases(db, id, o, secs, now);
    case _ => SameLeases(a, db, Next(db, a));
  }

  // ---- events -----------------------------------------------------------------------------------------------

  /** What an appended event says about the transaction that appended it. */
  predicate Appended(a: Action, db: Db, e: Event) {
    match e.kind
    case Controlled(c, _) => a.Command? && a.id == e.jobId && a.command == c
    case Claimed =>
      a.ClaimNext? && a.choice == Some(e.jobId) && e.at == a.args.now && e.jobId in db.jobs && !Halted(db.jobs[e.jobId])
    case AttemptStarted(n) =>
      a.Begin? && a.id == e.jobId && e.jobId in db.jobs && db.jobs[e.jobId].state == Running &&
        n == db.jobs[e.jobId].attempt + 1
    case Moved(from, to, _, _) =>
      a.Transit? && a.id == e.jobId && a.move.to == to && e.jobId in db.jobs && db.jobs[e.jobId].state == from &&
        MoveAllowed(from, to)
    case _ => !a.Command?
  }

  /** At most one event is appended, except by a reap, which only appends lease expiries. */
  predicate Logged(a: Action, db: Db, r: Db) {
    && db.events <= r.events
    && (forall i :: |db.events| <= i < |r.events| ==> Appended(a, db, r.events[i]))
    && (!a.Reap? ==> |r.events| <= |db.events| + 1)
    && (a.Reap? ==> forall i :: |db.events| <= i < |r.events| ==> r.events[i].kind == LeaseExpired)
    && (r.jobs != db.jobs && (a.Command? || a.Begin? || a.ClaimNext?) ==> |r.events| == |db.events| + 1)
  }

  lemma {:induction false} ReapEvents(db: Db, order: seq<JobId>, now: int)
    ensures db.events <= ReapAll(db, order, now).events
    ensures forall i :: |db.events| <= i < |ReapAll(db, order, now).events| ==>
      ReapAll(db, order, now).events[i].kind == LeaseExpired
    decreases |order|
  {
    if order != [] {
      ReapEvents(db, order[..|order| - 1], now);
    }
  }

  lemma NoEvent(a: Action, db: Db, r: Db)
    requires r.events == db.events && !a.Reap?
    requires r.jobs == db.jobs || !(a.Command? || a.Begin? || a.ClaimNext?)
    ensures Logged(a, db, r)
  {
  }

  lemma TransitLogged(db: Db, id: JobId, m: Move, now: int)
    ensures Logged(Transit(id, m, now), db, Transition(db, id, m, now))
  {
  }

  lemma EnsureLogged(db: Db, id: JobId, s: Snapshot, rt: Routing, b: string, k: string, now: int)
    ensures Logged(Ensure(id, s, rt, b, k, now), db, EnsureJob(db, id, s, rt, b, k, now))
  {
  }

  lemma AcceptLogged(db: Db, id: JobId, s: Snapshot, now: int)
    ensures Logged(Accept(id, s, now), db, AcceptSnapshot(db, id, s, now))
  {
  }

  lemma NoteLogged(db: Db, id: JobId, n: string, now: int)
    ensures Logged(Note(id, n, now), db, RecordEvent(db, id, n, now))
  {
  }

  lemma BeginLogged(db: Db, id: JobId, c: Option<string>, now: int)
    ensures Logged(Begin(id, c, now), db, BeginAttempt(db, id, c, now))
  {
  }

  lemma ClaimLogged(db: Db, id: JobId, args: ClaimArgs)
    requires Selectable(db, id, args.now)
    ensures Logged(ClaimNext(args, Some(id)), db, Claim(db, id, args))
  {
  }

  lemma CommandLogged(db: Db, id: JobId, c: Types.Command, now: int)
    ensures Logged(Command(id, c, now), db, Control(db, id, c, now))
  {
  }

  lemma NextLogged(db: Db, a: Action)
    requires Enabled(db, a)
    ensures Logged(a, db, Next(db, a))
  {
    match a
    case Ensure(id, s, rt, b, k, now) => EnsureLogged(db, id, s, rt, b, k, now);
    case Accept(id, s, now) => AcceptLogged(db, id, s, now);
    case ClaimNext(args, choice) =>
      if choice.Some? { ClaimLogged(db, choice.value, args); } else { NoEvent(a, db, db); }
    case Begin(id, c, now) => BeginLogged(db, id, c, now);
    case Transit(id, m, now) => TransitLogged(db, id, m, now);
    case Command(id, c, now) => CommandLogged(db, id, c, now);
    case Reap(_, order, now) => ReapEvents(db, order, now);
    case Note(id, n, now) => NoteLogged(db, id, n, now);
    case _ => NoEvent(a, db, Next(db, a));
  }
}

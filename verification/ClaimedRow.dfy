/** The row of a claimed job as its worker sees it, while other processes act on the tables. */
module ClaimedRow {
  import opened Types
  import opened StoreSpec
  import opened StoreActions
  import opened StoreInvariant
  import opened StoreSteps

  /** The run is over for the tables: no active state and no lease. */
  predicate Settled(j: Job) {
    j.state !in ACTIVE && Free(j)
  }

  /** What a worker leaves behind at any point: a queued row holds no lease, and a row under review, or open with
      its lease, has its pull request. */
  predicate Sane(j: Job) {
    (j.state == Queued ==> Free(j)) && (j.state == Reviewing || (j.state == PrOpen && Held(j)) ==> j.prNumber.Some?)
  }

  /** The row keeps its open pull request, unless it was merged or an operator asked to cancel. */
  predicate KeepsOpen(j: Job) {
    (j.state in {PrOpen, Reviewing} && j.prNumber.Some?) || j.state == Done || j.cancel
  }

  /** The parts of a claimed row that stay what they were for a whole run. */
  predicate AboutClaim(j: Job, claimed: Job) {
    && j.id == claimed.id && j.repository == claimed.repository && j.issue == claimed.issue
    && j.snapshot == claimed.snapshot && j.routing == claimed.routing && j.branch == claimed.branch &&
      j.key == claimed.key
  }

  /** The conversation at a provider that the row names as possibly alive: the reviewer's during a review, except while
      the implementer repairs, otherwise the implementer's. */
  predicate NamesRun(j: Job, provider: string, conversation: string) {
    if j.state == Reviewing && j.phase != "review-repair"
    then Or(j.routing.reviewer, "") == provider && j.reviewConversation == Some(conversation)
    else j.routing.implementer == provider && j.conversation == Some(conversation)
  }

  /** How the row may change while the worker does not move it: its lease may be renewed, columns may be updated,
      the pause and cancel flags raised; an operator may stop it when it is not active, and its open pull request may
      be merged. */
  predicate Follows(j: Job, j': Job) {
    && AboutClaim(j', j) && j'.attempt == j.attempt
    && (j.prNumber.Some? ==> j'.prNumber.Some?)
    && (j.cancel ==> j'.cancel) && (j.pause ==> j'.pause) && (j'.retry ==> j.retry)
    && (j'.leaseOwner.Some? ==> j'.leaseOwner == j.leaseOwner)
    && ((j'.state == j.state && Held(j') == Held(j) && Free(j') == Free(j)) ||
        (j.state != Running && j'.state == Canceled && j'.cancel && Free(j')) ||
        (j.state in {PrOpen, Reviewing} && j'.state == Done && Free(j')) ||
        (j.state == Queued && j'.state == NeedsGuidance && j'.pause && Free(j')))
  }

  /** The same with the pull request number, the conversations and, while it is active, the phase kept, as other
      processes leave the row. */
  predicate Quietly(j: Job, j': Job) {
    && Follows(j, j') && j'.prNumber == j.prNumber
    && j'.conversation == j.conversation && j'.reviewConversation == j.reviewConversation
    && (j.state in ACTIVE && j'.state == j.state ==> j'.phase == j.phase)
  }

  lemma QuietlyCompose(a: Job, b: Job, c: Job)
    requires Quietly(a, b) && Quietly(b, c)
    ensures Quietly(a, c)
  {
  }

  /** Where a row stands that was last moved to `to`: there, or where an operator's stop or a merge has taken it. */
  predicate EndsIn(j: Job, to: JobState) {
    || j.state == to
    || (j.state == Canceled && j.cancel)
    || (j.state == NeedsGuidance && to == Queued && j.pause)
    || (j.state == Done && to in {PrOpen, Reviewing})
  }

  lemma FollowsCompose(a: Job, b: Job, c: Job)
    requires Follows(a, b) && Follows(b, c)
    ensures Follows(a, c)
  {
  }

  lemma FollowsKeeps(j: Job, j': Job)
    requires Follows(j, j')
    ensures Sane(j) ==> Sane(j')
    ensures Settled(j) ==> Settled(j')
    ensures KeepsOpen(j) ==> KeepsOpen(j')
    ensures j.state == Running ==> j'.state == Running
  {
  }

  function PhasedMove(to: JobState, phase: Option<string>, release: Option<bool>): Move {
    Move(to, phase, [], None, release)
  }

  function PlainMove(to: JobState, release: Option<bool>): Move {
    PhasedMove(to, None, release)
  }

  /** A worker's move: it keeps the lease only for a review or an open pull request. */
  predicate WorkerMove(j: Job, to: JobState, release: Option<bool>) {
    && to != Running
    && (to in {PrOpen, Reviewing} ==> j.prNumber.Some?)
    && (release == Some(false) ==> to in {PrOpen, Reviewing})
    && (to == Reviewing ==> release == Some(false))
  }

  /** A recorded pull request is only left when it was merged or canceled, and a review needs one. */
  predicate MayMove(prOpen: bool, j: Job, to: JobState) {
    (to == Reviewing ==> prOpen) && (prOpen ==> to in {PrOpen, Reviewing} || j.cancel || j.state == Done)
  }

  lemma MovingKeeps(j: Job, to: JobState, phase: Option<string>, release: Option<bool>, now: int)
    requires WorkerMove(j, to, release) && MoveAllowed(j.state, to)
    ensures var j' := Moving(j, PhasedMove(to, phase, release), now);
      Sane(j') && j'.id == j.id && j'.state == to && j'.attempt == j.attempt && j'.prNumber == j.prNumber
    ensures var j' := Moving(j, PhasedMove(to, phase, release), now);
      (release != Some(false) ==> Settled(j')) && (release == Some(false) && Held(j) ==> Held(j'))
    ensures var j' := Moving(j, PhasedMove(to, phase, release), now);
      (KeepsOpen(j) && (to in {PrOpen, Reviewing} || j.cancel || j.state == Done) ==> KeepsOpen(j')) &&
      (to == PrOpen ==> KeepsOpen(j'))
  {
  }

  /** A move that keeps the lease finds it, when the row had one. */
  lemma StillHeld(j: Job, mid: Job, to: JobState)
    requires Follows(j, mid) && MoveAllowed(mid.state, to) && to in {PrOpen, Reviewing} && Held(j) && Sane(j)
    ensures Held(mid)
  {
  }

  lemma IdleIsSettled(j: Job)
    requires Sane(j) && (Held(j) || Free(j)) && (Held(j) ==> j.state in HOLDERS)
    requires j.state != Running && !(j.prNumber.Some? && j.state in {PrOpen, Reviewing})
    ensures Settled(j)
  {
  }

  /** A patch that writes at most the validation summary. */
  predicate IsNote(p: Patch) {
    p == NO_PATCH.(validation := p.validation)
  }

  /** Actions of others during a run: anything that leaves the row alone, a renewal of its lease, an operator's pause
      or cancel, a noted CI result, and the merge of its pull request. */
  predicate Quiet(db: Db, a: Action, id: JobId) {
    && Enabled(db, a)
    && (|| (a.Renew? && a.id == id)
        || (a.Command? && a.id == id && a.command in {Pause, Cancel})
        || (a.Update? && a.id == id && IsNote(a.patch))
        || (a.Transit? && a.id == id && a.move.to == Done)
        || (id in db.jobs && id in Next(db, a).jobs && Next(db, a).jobs[id] == db.jobs[id]))
  }

  lemma RenewFollows(db: Db, id: JobId, owner: string, seconds: int, now: int)
    requires Inv(db) && id in db.jobs
    ensures id in RenewLease(db, id, owner, seconds, now).jobs
    ensures Quietly(db.jobs[id], RenewLease(db, id, owner, seconds, now).jobs[id])
  {
  }

  lemma StopFollows(db: Db, id: JobId, command: Types.Command, now: int)
    requires id in db.jobs && db.jobs[id].id == id && command in {Pause, Cancel}
    ensures id in Control(db, id, command, now).jobs && Quietly(db.jobs[id], Control(db, id, command, now).jobs[id])
  {
  }

  predicate IsOpened(e: Event, id: JobId) {
    e.jobId == id && e.kind.Moved? && e.kind.to == PrOpen
  }

  /** From position `past` on the event log records a transition of the job to PR_OPEN. */
  ghost predicate OpenedSince(events: seq<Event>, past: nat, id: JobId) {
    exists i :: past <= i < |events| && IsOpened(events[i], id)
  }

  /** Others never record a transition to PR_OPEN, except of a job that is there already. */
  lemma QuietOpens(db: Db, a: Action, id: JobId)
    requires Inv(db) && Quiet(db, a, id) && id in db.jobs
    ensures db.events <= Next(db, a).events
    ensures OpenedSince(Next(db, a).events, |db.events|, id) ==> db.jobs[id].state == PrOpen
  {
    var r := Next(db, a);
    NextLogged(db, a);
    if i :| |db.events| <= i < |r.events| && IsOpened(r.events[i], id) {
      assert Appended(a, db, r.events[i]);
      assert a.Transit? && r == Transition(db, id, a.move, a.now);
    }
  }

  /** What a run has done to its row so far: attempts begun, a pull request recorded, the retry request served, and
      the state its last move ended in. */
  datatype Standing = Standing(begun: nat, prOpen: bool, served: bool, decided: Option<JobState>)

  /** A running row holds its lease; once its pull request was recorded it is open with its lease, merged or
      canceled. */
  predicate InHand(j: Job, prOpen: bool) {
    if !prOpen then j.state == Running && Held(j)
    else (j.state in {PrOpen, Reviewing} && Held(j)) || (j.state == Canceled && j.cancel) || j.state == Done
  }

  /** The row stands where the run decided, or the run still has it in hand. */
  predicate Stands(j: Job, s: Standing) {
    match s.decided
    case Some(to) => to != Running && EndsIn(j, to)
    case None => InHand(j, s.prOpen)
  }

  /** What a run keeps of its row: the claim, the attempts it began, the pull request it recorded, a served retry
      request, and where it stands. */
  predicate RowOk(j: Job, claimed: Job, s: Standing) {
    && AboutClaim(j, claimed) && j.attempt == claimed.attempt + s.begun && Sane(j)
    && (j.leaseOwner.Some? ==> j.leaseOwner == claimed.leaseOwner)
    && (s.prOpen ==> KeepsOpen(j)) && (j.state in {PrOpen, Reviewing} ==> s.prOpen)
    && (s.served ==> !j.retry) && Stands(j, s)
  }

  lemma RowOkKept(j: Job, j': Job, claimed: Job, s: Standing)
    requires RowOk(j, claimed, s) && Follows(j, j')
    ensures RowOk(j', claimed, s)
  {
  }

  lemma NoteFollows(db: Db, id: JobId, p: Patch, now: int)
    requires id in db.jobs && IsNote(p)
    ensures id in UpdateJob(db, id, p, now).jobs && Quietly(db.jobs[id], UpdateJob(db, id, p, now).jobs[id])
  {
  }

  lemma MergeFollows(db: Db, id: JobId, m: Move, now: int)
    requires Inv(db) && LegalMove(m) && id in db.jobs && m.to == Done
    ensures id in Transition(db, id, m, now).jobs && Quietly(db.jobs[id], Transition(db, id, m, now).jobs[id])
  {
  }

  lemma QuietFollows(db: Db, a: Action, id: JobId)
    requires Inv(db) && Quiet(db, a, id) && id in db.jobs
    ensures Inv(Next(db, a)) && id in Next(db, a).jobs && Quietly(db.jobs[id], Next(db, a).jobs[id])
  {
    NextKeepsInv(db, a);
    if a.Renew? && a.id == id {
      RenewFollows(db, id, a.owner, a.seconds, a.now);
    } else if a.Command? && a.id == id && a.command in {Pause, Cancel} {
      StopFollows(db, id, a.command, a.now);
    } else if a.Update? && a.id == id && IsNote(a.patch) {
      NoteFollows(db, id, a.patch, a.now);
    } else if a.Transit? && a.id == id && a.move.to == Done {
      MergeFollows(db, id, a.move, a.now);
    } else {
      assert Next(db, a).jobs[id] == db.jobs[id];
    }
  }
}

/** What one run of a claimed job asks, is answered and does, as a sequence of acts, and the rules the acts obey. */
module Trace {
  import opened Types
  import opened Answers
  import opened GitHub
  import StoreActions
  import opened Text
  import opened StoreInvariant
  import opened ClaimedRow
  import opened History
  import Evidence

  datatype Role = Implementer | Reviewer

  /** Why an exception escaped: a call of the outside raised, or what the worker had been told made it raise. */
  datatype Cause =
    | Outside(exn: Exn)
    | LeaseLost(owner: string, now: int, at: nat, waiting: bool)
    | OutOfScope(live: Snapshot)
    | GuardRefused(job: Job, live: Snapshot, openPr: Option<int>, allow: bool, branchExists: bool)
    | Unlabelable(live: Snapshot)
    | PrMissing
    | PrClosed
    | NoNumber(job: Job)
    | NoSection(body: string)
    | NoSlot
    | MoveRefused(to: JobState, row: Job, at: nat)

  function ExnOf(cause: Cause): Exn {
    match cause
    case Outside(exn) => exn
    case LeaseLost(_, _, _, waiting) => if waiting then ProviderError else KnownError
    case OutOfScope(_) => StaleIssue
    case GuardRefused(_, _, _, _, _) => StaleIssue
    case Unlabelable(_) => StaleIssue
    case PrClosed => StaleIssue
    case NoSlot => ProviderError
    case _ => KnownError
  }

  /** An act is logged when it is attempted, because a call that raises may have taken effect. An answer is logged by
      the call that asks for it. A check is logged when it succeeds, with the values it compared.

      `at`, `from` and `until` are positions in the run's history: a transaction, or the tables before it. */
  datatype Act =
    // readings
    | ReadIssue(live: Snapshot)
    | ReadPr(found: Option<int>)
    | ReadBranch(seen: bool)
    | ReadProvider(known: bool)
    | ReadBody(body: string)
    | Slotted(provider: string)
    | Verified
    // checks
    | Matched(job: Job, live: Snapshot)
    | Mismatched(job: Job, live: Snapshot, known: bool)
    | Renewed(owner: string, now: int, at: nat)
    | ScopeOk(live: Snapshot)
    | Guarded(job: Job, live: Snapshot, openPr: Option<int>, allow: bool, branchExists: bool)
    | LookedUp(branch: string, found: Option<int>)
    // answers
    | Adopted(row: Job, at: nat)
    | Assessed(role: Role, health: Health)
    | Unavailable
    | SetUp(good: bool)
    | Started(role: Role, conversation: string)
    | Waited(role: Role, provider: string, conversation: string, named: string, result: TurnResult, from: nat,
             until: nat)
    | Judged(row: Job, at: nat, outcome: Outcome)
    | Observed(paths: seq<string>, substantive: bool)
    | Listed(commands: nat)
    | Ran(ok: bool)
    | Round(results: seq<bool>)
    | Corrigible(resumable: bool)
    | Changes(dirty: bool)
    | Ahead(commits: nat)
    | Remote(matches: bool)
    // effects
    | CheckedOut
    | Committed
    | Turn(role: Role, provider: string)
    | Pushed(branch: string, first: bool)
    | PrWritten(branch: string, created: bool)
    | PrLabeled
    | EvidenceWritten(number: int, body: string, validation: string, written: string)
    | ReviewPosted(number: int)
    | Began
    | BackedOff(provider: string, seconds: int, now: int, at: nat)
    | Recorded(to: JobState, kept: bool)
    // exceptions
    | Raised(cause: Cause)
    | Caught(exn: Exn, row: Job, at: nat, limited: Option<string>)
    | Nothing

  /** The configured limits of attempts in a job's life and of corrections and review repairs in a run. */
  datatype Limits = Limits(attempts: nat, corrections: nat, repairs: nat)

  /** What the rules refer to: the claimed row, the configured concurrency scopes, the time of a lease, the limits. */
  datatype Rules = Rules(
    claimed: Job, scope: (string, set<string>) -> Option<string>, seconds: int, limits: Limits)

  const QUALITY_GATE := ".openhands/quality-gate.sh"

  predicate AsksForGate(issue: Snapshot) {
    var text := Lower(issue.title + "\n" + issue.body);
    Contains(text, QUALITY_GATE) || Contains(text, "quality gate")
  }

  /** A change set counts when it goes beyond the validation gate, or the issue asks for the gate. */
  predicate HasSubstantive(job: Job, paths: seq<string>) {
    (exists p :: p in paths && p != QUALITY_GATE) || (AsksForGate(job.snapshot) && QUALITY_GATE in paths)
  }

  /** The mutations of the repository and its pull requests. */
  predicate Mutates(a: Act) {
    a.Pushed? || a.PrWritten? || a.EvidenceWritten? || a.ReviewPosted?
  }

  /** What makes a preparation stale: a mutation that used it, a provider's turn, a validation round. */
  predicate Stales(a: Act) {
    Mutates(a) || a.Turn? || a.Round?
  }

  predicate Passed(results: seq<bool>) {
    results != [] && forall i :: 0 <= i < |results| ==> results[i]
  }

  predicate ImplementerTurn(a: Act) {
    a.Turn? && a.role.Implementer?
  }

  predicate Opens(a: Act) {
    a.Recorded? && a.to == PrOpen
  }

  // ---- what the past of a run amounts to ------------------------------------------------------------------------

  /** How far the next mutation is prepared: 1 a renewal, 2 then the scope, 3 then the guard. `branchOk` says that
      this guard saw no branch, or let pass the branch of the pull request `own`; `lookup` is what the last look-up
      since found; `passed` that a guard passed since. */
  type Level = n: nat | n <= 3
  datatype Prep = Prep(level: Level, branchOk: bool, lookup: Option<Option<int>>, passed: bool)

  const UNPREPARED := Prep(0, false, None, false)

  /** The state of the work since the last implementer turn. */
  datatype Work = Work(validated: bool, substantive: bool)

  /** What was read, and the provider slot taken, since the last act that is not a reading, and the body of the pull
      request last read. */
  datatype Readings = Readings(
    issue: Option<Snapshot>, pr: Option<Option<int>>, branch: Option<bool>, provider: Option<bool>,
    slot: Option<string>, body: Option<string>)

  const UNREAD := Readings(None, None, None, None, None, None)

  /** The worktree: whether it is the job's, and verified since the last command or turn in it. */
  datatype Tree = Tree(checkedOut: bool, intact: bool)

  /** The corrections and repairs made, whether an implementer turn was accepted, the conversation the first turn was
      started in and the one it is known by, the findings of the last review, the results of the commands run, and
      whether a retry request was served. */
  datatype Tally = Tally(
    corrections: nat, repairs: nat, accepted: bool, run: string, named: string, findings: Option<Findings>,
    ran: seq<bool>, served: bool)

  /** The last act that decides how the run goes on, the provider backed off since, and the state of the row's last
      move, if that move gave the lease back. */
  datatype Course = Course(last: Act, rested: Option<string>, decided: Option<JobState>)

  /** `own` is the open pull request last found on the branch; a further position in the history is `clock` or later. */
  datatype Monitor = Monitor(
    prep: Prep, work: Work, own: Option<int>, clock: nat, turns: nat, begun: nat, prOpen: bool, matched: bool,
    tally: Tally, read: Readings, tree: Tree, course: Course)

  const FRESH := Monitor(
    UNPREPARED, Work(false, false), None, 0, 0, 0, false, false,
    Tally(0, 0, false, "", "", None, [], false), UNREAD, Tree(false, false), Course(Nothing, None, None))

  function AdvancePrep(p: Prep, own: Option<int>, a: Act): Prep {
    if Stales(a) then UNPREPARED
    else match a
      case Renewed(_, _, _) => Prep(1, false, p.lookup, p.passed)
      case ScopeOk(_) => if p.level == 1 then p.(level := 2) else p
      case Guarded(job, _, _, allow, branchExists) =>
        if p.level < 2 then p.(passed := true)
        else p.(passed := true, level := 3,
                branchOk := if allow then own.Some? && job.prNumber == own else !branchExists)
      case LookedUp(_, found) => p.(lookup := Some(found))
      case _ => p
  }

  function AdvanceWork(w: Work, a: Act): Work {
    if ImplementerTurn(a) then Work(false, false)
    else if a.Round? then w.(validated := Passed(a.results))
    else if a.Observed? then w.(substantive := a.substantive)
    else w
  }

  function AdvanceRead(r: Readings, a: Act): Readings {
    match a
    case ReadIssue(live) => r.(issue := Some(live))
    case ReadPr(found) => r.(pr := Some(found))
    case ReadBranch(seen) => r.(branch := Some(seen))
    case ReadProvider(known) => r.(provider := Some(known))
    case ReadBody(body) => r.(body := Some(body))
    case Slotted(provider) => r.(slot := Some(provider))
    case _ => UNREAD.(body := if Mutates(a) then None else r.body)
  }

  function AdvanceTree(t: Tree, a: Act): Tree {
    match a
    case CheckedOut => Tree(true, false)
    case Verified => t.(intact := true)
    case SetUp(_) => t.(intact := false)
    case Ran(_) => t.(intact := false)
    case Turn(role, _) => if role.Implementer? then t.(intact := false) else t
    case _ => t
  }

  function AdvanceTally(t: Tally, prOpen: bool, last: Act, a: Act): Tally {
    match a
    case Turn(role, _) =>
      if role.Reviewer? then t
      else if prOpen then t.(repairs := t.repairs + 1)
      else if last.Corrigible? then t.(corrections := t.corrections + 1)
      else t
    case Started(role, conversation) =>
      if role.Reviewer? || prOpen then t
      else t.(accepted := true, run := if t.corrections == 0 then conversation else t.run)
    case Waited(role, _, conversation, _, result, _, _) =>
      if role.Reviewer? then t.(findings := result.findings)
      else if !prOpen && t.corrections == 0 then t.(named := NameOf(result.conversation, conversation))
      else t
    case Listed(_) => t.(ran := [])
    case Ran(ok) => t.(ran := t.ran + [ok])
    case Began => t.(served := true)
    case Recorded(_, kept) => t.(served := t.served || kept)
    case _ => t
  }

  /** The acts that decide how the run goes on; the others prepare one of them. */
  predicate Steers(last: Act, a: Act) {
    match a
    case LookedUp(_, _) => last.Matched?
    case ReadIssue(_) => false
    case ReadPr(_) => false
    case ReadBranch(_) => false
    case ReadProvider(_) => false
    case ReadBody(_) => false
    case Slotted(_) => false
    case Verified => false
    case CheckedOut => false
    case Renewed(_, _, _) => false
    case ScopeOk(_) => false
    case Guarded(_, _, _, _, _) => false
    case Ran(_) => false
    case Began => false
    case BackedOff(_, _, _, _) => false
    case _ => true
  }

  function AdvanceCourse(k: Course, a: Act): Course {
    if Steers(k.last, a) then
      Course(a, None, if a.Recorded? then (if a.kept then None else Some(a.to)) else k.decided)
    else if a.BackedOff? then k.(rested := Some(a.provider))
    else k
  }

  /** The position an act refers to, and the next one that may be referred to. */
  function Since(a: Act): Option<nat> {
    match a
    case Renewed(_, _, at) => Some(at)
    case Adopted(_, at) => Some(at)
    case Waited(_, _, _, _, _, from, _) => Some(from)
    case Judged(_, at, _) => Some(at)
    case BackedOff(_, _, _, at) => Some(at)
    case Caught(_, _, at, _) => Some(at)
    case Raised(LeaseLost(_, _, at, _)) => Some(at)
    case Raised(MoveRefused(_, _, at)) => Some(at)
    case _ => None
  }

  function Until(a: Act): nat
    requires Since(a).Some?
  {
    match a
    case Waited(_, _, _, _, _, _, until) => until
    case Renewed(_, _, at) => at + 1
    case BackedOff(_, _, _, at) => at + 1
    case Raised(LeaseLost(_, _, at, _)) => at + 1
    case _ => Since(a).value
  }

  function AdvanceClock(clock: nat, a: Act): nat {
    if Since(a).Some? then Until(a) else clock
  }

  function Advance(m: Monitor, a: Act): Monitor {
    Monitor(
      AdvancePrep(m.prep, m.own, a), AdvanceWork(m.work, a),
      if a.LookedUp? && a.found.Some? then a.found else m.own,
      AdvanceClock(m.clock, a),
      m.turns + (if a.Turn? then 1 else 0), m.begun + (if a.Began? then 1 else 0),
      m.prOpen || Opens(a), m.matched || a.Matched?,
      AdvanceTally(m.tally, m.prOpen, m.course.last, a), AdvanceRead(m.read, a), AdvanceTree(m.tree, a),
      AdvanceCourse(m.course, a))
  }

  function Observe(log: seq<Act>): Monitor {
    if log == [] then FRESH else Advance(Observe(log[..|log| - 1]), log[|log| - 1])
  }

  // ---- the rules: what an act must have compared and what must be prepared ----------------------------------------

  predicate InScope(live: Snapshot, c: Rules) {
    c.scope(c.claimed.repository, live.labels) == Some(c.claimed.key)
  }

  /** The provider a role is played by. */
  predicate Plays(role: Role, provider: string, c: Rules) {
    match role
    case Implementer => c.claimed.routing.implementer == provider
    case Reviewer => c.claimed.routing.reviewer == Some(provider)
  }

  /** The issue may still get a label on its pull request. */
  predicate Labelable(live: Snapshot, c: Rules) {
    && Lower(live.state) == "open" && "agent:paused" !in live.labels && "agent:manual-only" !in live.labels
    && live.ContentHash() == c.claimed.snapshot.ContentHash()
  }

  /** The guard about a copy of the claimed row decides on what was just read; only a guard that does not allow an
      existing branch looks for one. */
  predicate GuardReads(r: Readings, job: Job, live: Snapshot, openPr: Option<int>, allow: bool, seen: bool, c: Rules) {
    AboutClaim(job, c.claimed) && r.issue == Some(live) && r.pr == Some(openPr) && (!allow ==> r.branch == Some(seen))
  }

  predicate Compares(m: Monitor, a: Act, c: Rules) {
    && (a.Matched? ==>
          AboutClaim(a.job, c.claimed) && ClaimStillMatches(a.job, a.live) && InScope(a.live, c) &&
          m.read.issue == Some(a.live) && m.read.provider == Some(true))
    && (a.Mismatched? ==>
          AboutClaim(a.job, c.claimed) && m.read.issue == Some(a.live) && m.read.provider == Some(a.known) &&
          !(ClaimStillMatches(a.job, a.live) && InScope(a.live, c) && a.known))
    && (a.Renewed? ==> c.claimed.leaseOwner == Some(a.owner))
    && (a.ScopeOk? ==> InScope(a.live, c) && m.read.issue == Some(a.live))
    && (a.Guarded? ==>
          GuardReads(m.read, a.job, a.live, a.openPr, a.allow, a.branchExists, c) &&
          GuardVerdict(a.job, a.live, a.openPr, a.allow, a.branchExists).None?)
    && (a.LookedUp? ==> a.branch == c.claimed.branch && m.read.pr == Some(a.found))
    && (a.Observed? ==> a.substantive == HasSubstantive(c.claimed, a.paths))
    && (a.Round? ==> a.results == m.tally.ran)
    && (a.Raised? ==> Holds(m, a.cause, c))
  }

  /** The cause of an exception is what the worker read. */
  predicate Holds(m: Monitor, cause: Cause, c: Rules) {
    match cause
    case OutOfScope(live) => m.read.issue == Some(live) && !InScope(live, c)
    case GuardRefused(job, live, openPr, allow, seen) =>
      GuardReads(m.read, job, live, openPr, allow, seen, c) && GuardVerdict(job, live, openPr, allow, seen).Some?
    case Unlabelable(live) => m.read.issue == Some(live) && !Labelable(live, c)
    case NoNumber(job) => AboutClaim(job, c.claimed) && job.prNumber.None?
    case NoSection(body) => m.read.body == Some(body) && Evidence.Bounds(body).None?
    case MoveRefused(to, row, _) => !StoreSpec.MoveAllowed(row.state, to)
    case _ => true
  }

  predicate Prepares(m: Monitor, a: Act, c: Rules) {
    && (Mutates(a) ==> m.prep.level == 3)
    && (a.Pushed? ==> a.branch == c.claimed.branch && m.work.validated)
    && (a.Pushed? && a.first ==> m.work.substantive && m.prep.branchOk)
    && (a.PrWritten? ==>
          a.branch == c.claimed.branch && m.prep.lookup.Some? && (a.created <==> m.prep.lookup.value.None?))
    && (a.PrWritten? && a.created ==> m.begun > 0)
    && (a.PrLabeled? ==> m.read.issue.Some? && Labelable(m.read.issue.value, c))
    && (a.EvidenceWritten? ==>
          m.own == Some(a.number) && m.read.body == Some(a.body) &&
          Evidence.Update(a.body, a.validation) == Some(a.written))
    && (a.ReviewPosted? ==> m.own == Some(a.number))
    && (a.Turn? ==> m.matched && Plays(a.role, a.provider, c) && m.read.slot == Some(a.provider))
    && (a.Turn? && m.course.last.SetUp? ==> m.tree.intact)
    && (a.SetUp? ==> m.tree.checkedOut && m.tree.intact)
    && (a.Ran? || a.Committed? || (a.Round? && a.results != []) ==> m.tree.intact)
    && (a.Recorded? && a.to == Reviewing ==> m.prep.level == 3)
    && (a.Recorded? && a.kept && m.course.last.Adopted? ==> m.tree.checkedOut && m.tree.intact)
    && (a.Assessed? && a.role.Implementer? && m.prOpen ==> m.prep.passed)
  }

  predicate Timely(m: Monitor, a: Act) {
    (Since(a).Some? ==> m.clock <= Since(a).value) && (a.Waited? ==> a.from <= a.until)
  }

  // ---- the rules: how a run goes on -------------------------------------------------------------------------------

  /** The attempt the run counts as. */
  function Attempt(m: Monitor, c: Rules): nat {
    c.claimed.attempt + m.begun
  }

  predicate IsStopped(row: Job) {
    row.cancel || row.pause
  }

  /** The implementer's health, asked for before the first turn. */
  predicate FirstHealth(m: Monitor) {
    m.course.last.Assessed? && m.course.last.role.Implementer? && !m.prOpen
  }

  /** The result of a first or correcting turn and the row read after it, when no operator stopped the job. */
  predicate Result(m: Monitor, outcome: Outcome) {
    m.course.last.Judged? && !IsStopped(m.course.last.row) && m.course.last.outcome == outcome
  }

  /** A caught exception of this class without an open pull request in the row. */
  predicate CaughtWithout(m: Monitor, exn: Exn) {
    var l := m.course.last;
    l.Caught? && l.exn == exn && !HasOpenPr(l.row) && l.limited.None?
  }

  /** Why a run leaves its job to the operator: the claim no longer matches, the provider is ill, an operator's pause
      or the agent's question, a stale issue without a pull request, a provider that never accepted a turn. */
  predicate NeedsOperator(m: Monitor) {
    var l := m.course.last;
    || l.Mismatched?
    || (FirstHealth(m) && l.health.authenticated && !l.health.limited && !l.health.healthy)
    || (l.Judged? && l.row.pause && !l.row.cancel) || Result(m, GuidanceNeeded)
    || (l.Caught? && l.exn == StaleIssue && l.row.prNumber.None?)
    || (CaughtWithout(m, ProviderError) && !m.tally.accepted)
  }

  predicate IsBlocked(m: Monitor) {
    m.course.last == SetUp(false) || Result(m, WorkBlocked)
  }

  predicate IsCanceled(m: Monitor) {
    (m.course.last.Judged? && m.course.last.row.cancel) || Result(m, WorkCanceled)
  }

  /** Why a run fails: authentication, exhausted attempts, a failed turn, exhausted corrections, nothing to publish, an
      exception without an open pull request. */
  predicate HasFailed(m: Monitor, c: Rules) {
    var l := m.course.last;
    var exhausted := Attempt(m, c) >= c.limits.attempts;
    || (FirstHealth(m) && (!l.health.authenticated || (exhausted && (l.health.limited || l.health.healthy))))
    || Result(m, WorkFailed(Authentication)) || Result(m, WorkFailed(OtherFailure))
    || (exhausted && (Result(m, WorkFailed(Quota)) || Result(m, WorkFailed(ProviderTool))))
    || (l.Corrigible? && (!l.resumable || m.tally.corrections >= c.limits.corrections))
    || l == Ahead(0)
    || (CaughtWithout(m, ProviderError) && m.tally.accepted && exhausted)
    || (CaughtWithout(m, KnownError) && l.row.state == Running) || CaughtWithout(m, Unexpected)
  }

  /** Why a run queues its job again: its provider, or another one, is limited or fails, and attempts remain. That
      provider was backed off before. */
  predicate WaitsForProvider(m: Monitor, c: Rules) {
    var l := m.course.last;
    var remain := Attempt(m, c) < c.limits.attempts;
    || (m.course.rested == Some(c.claimed.routing.implementer) && remain &&
        (|| (FirstHealth(m) && l.health.authenticated && l.health.limited)
         || Result(m, WorkFailed(Quota)) || Result(m, WorkFailed(ProviderTool))
         || (CaughtWithout(m, ProviderError) && m.tally.accepted)))
    || (IsLimited(m) && l.row.prNumber.None?)
  }

  /** A provider failure while some provider is limited, which was backed off. */
  predicate IsLimited(m: Monitor) {
    var l := m.course.last;
    l.Caught? && l.exn == ProviderError && l.limited.Some? && m.course.rested == l.limited
  }

  /** Why PR_OPEN is recorded with the lease kept: a pull request was adopted for review, or published. */
  predicate HasOpened(m: Monitor, c: Rules) {
    (m.course.last.Adopted? && c.claimed.routing.reviewRequired) || (m.course.last.EvidenceWritten? && !m.prOpen)
  }

  /** A review starts when its provider is usable, and again after a published repair. */
  predicate StartsReview(m: Monitor) {
    var l := m.course.last;
    (l.Assessed? && l.role.Reviewer? && Usable(l.health)) || (l.EvidenceWritten? && m.prOpen)
  }

  /** The last review asked for repairs, and one more is allowed. */
  predicate AsksForRepair(m: Monitor, c: Rules) {
    m.tally.findings.Some? && HasFindings(m.tally.findings.value) && m.tally.repairs < c.limits.repairs
  }

  /** A turn whose result can be acted on: completed, and a review with its structured part. */
  predicate Complete(a: Act)
    requires a.Waited?
  {
    a.result.outcome == WorkCompleted && (a.role.Reviewer? ==> a.result.findings.Some?)
  }

  /** Why a run leaves its pull request open and gives the lease back: it adopted one without review or rework, or
      published without review; the review is not possible, not complete, or asks for nothing more; a repair is not
      possible, not complete or not valid; an exception. */
  predicate LeavesOpen(m: Monitor, c: Rules) {
    var l := m.course.last;
    || (l.Adopted? && !c.claimed.routing.reviewRequired && !l.row.retry)
    || (l == Recorded(PrOpen, true) && !c.claimed.routing.reviewRequired)
    || l.Unavailable?
    || (l.Assessed? && !Usable(l.health) && (l.role.Reviewer? || m.prOpen))
    || (l.Waited? && m.prOpen && !Complete(l))
    || (l.ReviewPosted? && !AsksForRepair(m, c))
    || (l.Round? && m.prOpen && !m.work.validated)
    || (l.Caught? && l.exn == StaleIssue && l.row.prNumber.Some?)
    || (IsLimited(m) && l.row.prNumber.Some?)
    || (l.Caught? && l.exn != StaleIssue && l.limited.None? && HasOpenPr(l.row))
  }

  /** The state the last answer leads to, and whether the lease is kept there. */
  predicate Leads(m: Monitor, to: JobState, kept: bool, c: Rules) {
    match to
    case PrOpen => if kept then HasOpened(m, c) else LeavesOpen(m, c)
    case Reviewing => kept && StartsReview(m)
    case NeedsGuidance => !kept && NeedsOperator(m)
    case Blocked => !kept && IsBlocked(m)
    case Failed => !kept && HasFailed(m, c)
    case Queued => !kept && WaitsForProvider(m, c)
    case Canceled => !kept && IsCanceled(m)
    case Running => false
    case Done => false
  }

  /** The first health check comes when no pull request was found, or one to be reworked. A repair's comes after a
      posted review that asks for it. */
  predicate MayAssess(m: Monitor, role: Role, c: Rules) {
    var l := m.course.last;
    if role.Reviewer? then
      l == Recorded(PrOpen, true) && c.claimed.routing.reviewRequired
    else if m.prOpen then l.ReviewPosted? && AsksForRepair(m, c)
    else
      (l.LookedUp? && l.found.None?) || (l.Adopted? && !c.claimed.routing.reviewRequired && l.row.retry)
  }

  /** A turn follows a good setup, a correction the last round allows, a usable repair provider, or a started review. */
  predicate MayTurn(m: Monitor, role: Role, c: Rules) {
    var l := m.course.last;
    if role.Reviewer? then l == Recorded(Reviewing, true)
    else if m.prOpen then l.Assessed? && l.role.Implementer? && Usable(l.health)
    else l == SetUp(true) || (l == Corrigible(true) && m.tally.corrections < c.limits.corrections)
  }

  /** The worker waits for the turn the provider accepted. While a turn corrects, the row names the conversation the
      first turn is known by. */
  predicate MayWait(m: Monitor, role: Role, conversation: string, named: string) {
    && m.course.last == Started(role, conversation)
    && (role.Implementer? && !m.prOpen ==> m.begun > 0)
    && named == if role.Implementer? && !m.prOpen && m.tally.corrections > 0 then m.tally.named else conversation
  }

  predicate MayValidate(m: Monitor) {
    var l := m.course.last;
    if m.prOpen then l.Waited? && l.role.Implementer? && Complete(l) else l.Observed?
  }

  predicate GoodWork(m: Monitor) {
    m.work.validated && (m.prOpen || m.work.substantive)
  }

  /** The pull request carries its text and its label: an edit writes both, a creation is labeled afterwards. */
  predicate IsLabeled(l: Act) {
    l.PrLabeled? || (l.PrWritten? && !l.created)
  }

  /** What must come directly before an act, apart from what prepares it. */
  predicate InOrder(m: Monitor, a: Act, c: Rules) {
    var l := m.course.last;
    match a
    case Matched(_, _) => l.Nothing?
    case Mismatched(_, _, _) => l.Nothing?
    case LookedUp(_, _) => l.Matched? || (!m.prOpen && (l.Pushed? || l == Remote(true) || l.PrWritten?))
    case Adopted(row, _) => l.LookedUp? && l.found.Some? && row.prNumber == l.found
    case Assessed(role, _) =>
      MayAssess(m, role, c) && (role.Reviewer? ==> c.claimed.routing.reviewer !in {None, Some("")})
    case Unavailable => MayAssess(m, Reviewer, c)
    case SetUp(_) => FirstHealth(m) && Usable(l.health) && Attempt(m, c) < c.limits.attempts
    case Turn(role, _) => MayTurn(m, role, c)
    case Started(role, conversation) =>
      l.Turn? && l.role == role &&
      (role.Implementer? && !m.prOpen && m.tally.corrections > 0 ==> conversation == m.tally.run)
    case Began => l.Started? && l.role.Implementer? && !m.prOpen && m.begun == 0
    case Waited(role, provider, conversation, named, _, _, _) =>
      MayWait(m, role, conversation, named) && Plays(role, provider, c)
    case Judged(_, _, outcome) => l.Waited? && !m.prOpen && outcome == l.result.outcome
    case Observed(_, _) => Result(m, WorkCompleted)
    case Listed(_) => MayValidate(m)
    case Ran(_) => l.Listed? && |m.tally.ran| < l.commands
    case Round(results) => l.Listed? && |results| == l.commands
    case Corrigible(_) => l.Round? && !m.prOpen && !GoodWork(m)
    case Changes(_) => l.Round? && GoodWork(m)
    case Ahead(_) => l == Changes(false) && !m.prOpen
    case Committed => l == Changes(true)
    case Remote(_) => !m.prOpen && (l.Committed? || (l.Ahead? && l.commits > 0))
    case Pushed(_, first) => if first then l == Remote(false) else l.Committed? && m.prOpen
    case PrWritten(_, _) => !m.prOpen && (l.Pushed? || l == Remote(true))
    case PrLabeled => l.PrWritten? && l.created
    case EvidenceWritten(_, _, _, _) => if m.prOpen then l.Pushed? || l == Changes(false) else IsLabeled(l)
    case ReviewPosted(_) => l.Waited? && l.role.Reviewer? && Complete(l)
    case Recorded(to, kept) => Leads(m, to, kept, c)
    case Caught(exn, _, _, limited) =>
      l.Raised? && exn == ExnOf(l.cause) && (limited.Some? ==> exn == ProviderError)
    case Nothing => false
    case _ => true
  }

  predicate Proper(m: Monitor, a: Act, c: Rules) {
    Compares(m, a, c) && Prepares(m, a, c) && Timely(m, a) && InOrder(m, a, c)
  }

  ghost predicate Good(log: seq<Act>, c: Rules) {
    forall i :: 0 <= i < |log| ==> Proper(Observe(log[..i]), log[i], c)
  }

  lemma GoodAt(log: seq<Act>, c: Rules, i: nat)
    requires Good(log, c) && i < |log|
    ensures var m, a := Observe(log[..i]), log[i];
      Compares(m, a, c) && Prepares(m, a, c) && Timely(m, a) && InOrder(m, a, c)
  {
    hide Observe, Compares, Prepares, Timely, InOrder;
    assert Proper(Observe(log[..i]), log[i], c);
  }

  lemma GoodExtends(log: seq<Act>, a: Act, c: Rules)
    requires Good(log, c) && Proper(Observe(log), a, c)
    ensures Good(log + [a], c) && Observe(log + [a]) == Advance(Observe(log), a)
  {
    hide Proper, Advance;
    var longer := log + [a];
    assert longer[..|log|] == log;
    forall i | 0 <= i < |longer| ensures Proper(Observe(longer[..i]), longer[i], c) {
      if i < |log| {
        assert longer[..i] == log[..i];
      }
    }
  }

  // ---- the history behind the log -----------------------------------------------------------------------------------

  /** What an act says about the tables is so in the history of the run. */
  predicate BackedBy(a: Act, c: Rules, h: Past) {
    match a
    case Renewed(owner, now, at) => RenewedAt(h, c.claimed.id, c.seconds, owner, now, at)
    case Adopted(row, at) => SeenAt(h, c.claimed.id, row, at)
    case Waited(_, provider, _, named, _, from, until) =>
      NamedThroughout(h, c.claimed.id, provider, named, from, until)
    case Judged(row, at, _) => SeenAt(h, c.claimed.id, row, at)
    case BackedOff(provider, seconds, now, at) => RestedAt(h, provider, seconds, now, at)
    case Caught(_, row, at, _) => SeenAt(h, c.claimed.id, row, at)
    case Raised(LeaseLost(owner, now, at, _)) => RefusedAt(h, c.claimed.id, c.seconds, owner, now, at)
    case Raised(MoveRefused(_, row, at)) => SeenAt(h, c.claimed.id, row, at)
    case _ => true
  }

  ghost predicate Backed(log: seq<Act>, c: Rules, h: Past) {
    forall k :: 0 <= k < |log| ==> BackedBy(log[k], c, h)
  }

  lemma BackedStays(a: Act, c: Rules, h: Past, own: bool, t: StoreActions.Action)
    requires BackedBy(a, c, h) && |h.views| > 0
    ensures BackedBy(a, c, Grow(h, own, t))
  {
    hide StoreActions.Next, NamedIn, StoreSpec.Renewable;
  }

  lemma BackedGrows(log: seq<Act>, c: Rules, h: Past, own: bool, t: StoreActions.Action)
    requires Backed(log, c, h) && |h.views| > 0
    ensures Backed(log, c, Grow(h, own, t))
  {
    hide BackedBy, Grow;
    forall k | 0 <= k < |log| ensures BackedBy(log[k], c, Grow(h, own, t)) {
      BackedStays(log[k], c, h, own, t);
    }
  }

  lemma BackedExtends(log: seq<Act>, a: Act, c: Rules, h: Past)
    requires Backed(log, c, h) && BackedBy(a, c, h)
    ensures Backed(log + [a], c, h)
  {
    hide BackedBy;
  }

  /** What an act says about the history lies in it. */
  lemma BackedInside(a: Act, c: Rules, h: Past)
    requires BackedBy(a, c, h) && |h.views| == |h.txs| + 1 && Since(a).Some?
    ensures Until(a) <= |h.txs|
  {
    hide NamedIn, StoreSpec.Renewable;
  }

  // ---- what the rules say about a trace -----------------------------------------------------------------------

  /** Nothing made a preparation stale from position `i` on. */
  ghost predicate NothingStales(log: seq<Act>, i: nat) {
    forall k :: i <= k < |log| ==> !Stales(log[k])
  }

  /** The preparation of a mutation. */
  ghost predicate Prepared(log: seq<Act>, level: nat, r: nat, s: nat, g: nat) {
    && (level >= 1 ==> r < |log| && log[r].Renewed? && NothingStales(log, r))
    && (level >= 2 ==> r < s < |log| && log[s].ScopeOk?)
    && (level >= 3 ==> s < g < |log| && log[g].Guarded?)
  }

  lemma {:induction false} LevelMeans(log: seq<Act>) returns (r: nat, s: nat, g: nat)
    ensures Prepared(log, Observe(log).prep.level, r, s, g)
  {
    r, s, g := 0, 0, 0;
    if log != [] {
      hide AdvanceWork, AdvanceTally, AdvanceRead, AdvanceTree, AdvanceCourse, AdvanceClock;
      var n := |log| - 1;
      r, s, g := LevelMeans(log[..n]);
      var before := Observe(log[..n]).prep.level;
      if log[n].Renewed? { r := n; }
      if log[n].ScopeOk? && before == 1 { s := n; }
      if log[n].Guarded? && before >= 2 { g := n; }
    }
  }

  /** The guard `g` saw no branch, or let pass the branch of the pull request found there before. */
  ghost predicate BranchAllowed(log: seq<Act>, g: nat)
    requires g < |log| && log[g].Guarded?
  {
    if log[g].allow then exists l :: FoundOwn(log, g, l) else !log[g].branchExists
  }

  ghost predicate FoundOwn(log: seq<Act>, g: nat, l: nat)
    requires g < |log| && log[g].Guarded?
  {
    l < g && log[l].LookedUp? && log[l].found.Some? && log[l].found == log[g].job.prNumber
  }

  lemma {:induction false} OwnMeans(log: seq<Act>) returns (l: nat)
    requires Observe(log).own.Some?
    ensures l < |log| && log[l].LookedUp? && log[l].found == Observe(log).own
  {
    hide AdvancePrep, AdvanceWork, AdvanceTally, AdvanceRead, AdvanceTree, AdvanceCourse, AdvanceClock;
    var n := |log| - 1;
    if log[n].LookedUp? && log[n].found.Some? {
      l := n;
    } else {
      l := OwnMeans(log[..n]);
    }
  }

  lemma {:induction false} BranchOkMeans(log: seq<Act>) returns (g: nat)
    requires Observe(log).prep.branchOk
    ensures g < |log| && log[g].Guarded? && BranchAllowed(log, g) && NothingStales(log, g)
  {
    hide AdvanceWork, AdvanceTally, AdvanceRead, AdvanceTree, AdvanceCourse, AdvanceClock;
    var n := |log| - 1;
    var m := Observe(log[..n]);
    if log[n].Guarded? && m.prep.level >= 2 {
      g := n;
      if log[n].allow {
        var l := OwnMeans(log[..n]);
        assert FoundOwn(log, n, l);
      }
    } else {
      g := BranchOkMeans(log[..n]);
      if log[g].allow {
        var l :| FoundOwn(log[..n], g, l);
        assert FoundOwn(log, g, l);
      }
    }
  }

  lemma {:induction false} ValidatedMeans(log: seq<Act>) returns (j: nat)
    requires Observe(log).work.validated
    ensures j < |log| && log[j].Round? && Passed(log[j].results)
    ensures forall k :: j < k < |log| ==> !ImplementerTurn(log[k])
  {
    hide AdvancePrep, AdvanceTally, AdvanceRead, AdvanceTree, AdvanceCourse, AdvanceClock;
    var n := |log| - 1;
    if log[n].Round? {
      j := n;
    } else {
      j := ValidatedMeans(log[..n]);
    }
  }

  lemma {:induction false} SubstantiveMeans(log: seq<Act>) returns (j: nat)
    requires Observe(log).work.substantive
    ensures j < |log| && log[j].Observed? && log[j].substantive
    ensures forall k :: j < k < |log| ==> !ImplementerTurn(log[k])
  {
    hide AdvancePrep, AdvanceTally, AdvanceRead, AdvanceTree, AdvanceCourse, AdvanceClock;
    var n := |log| - 1;
    if log[n].Observed? {
      j := n;
    } else {
      j := SubstantiveMeans(log[..n]);
    }
  }

  lemma {:induction false} AbsentMeans(log: seq<Act>) returns (j: nat)
    requires Observe(log).prep.lookup == Some(None)
    ensures j < |log| && log[j].LookedUp? && log[j].found.None? && NothingStales(log, j)
  {
    hide AdvanceWork, AdvanceTally, AdvanceRead, AdvanceTree, AdvanceCourse, AdvanceClock;
    var n := |log| - 1;
    if log[n].LookedUp? {
      j := n;
    } else {
      j := AbsentMeans(log[..n]);
    }
  }

  lemma {:induction false} MatchedMeans(log: seq<Act>) returns (j: nat)
    requires Observe(log).matched
    ensures j < |log| && log[j].Matched?
  {
    hide AdvancePrep, AdvanceWork, AdvanceTally, AdvanceRead, AdvanceTree, AdvanceCourse, AdvanceClock;
    var n := |log| - 1;
    if log[n].Matched? {
      j := n;
    } else {
      j := MatchedMeans(log[..n]);
    }
  }

  /** The claimed specification and routing as the live issue shows them, in the claimed scope. */
  predicate StillClaimed(live: Snapshot, c: Rules) {
    live.ContentHash() == c.claimed.snapshot.ContentHash() && ClaimStillMatches(c.claimed, live)
  }

  /** Every mutation has its own renewal, scope check and guard, in this order, with no other mutation, turn or
      validation round since the renewal. The scope is the claimed one; the guard compared the claimed specification
      and routing with an open, unpaused issue, and saw no pull request on the branch other than the job's. */
  lemma MutationsGuarded(log: seq<Act>, c: Rules, i: nat) returns (r: nat, s: nat, g: nat)
    requires Good(log, c) && i < |log| && Mutates(log[i])
    ensures r < s < g < i && log[r].Renewed? && log[s].ScopeOk? && log[g].Guarded?
    ensures forall k :: r <= k < i ==> !Stales(log[k])
    ensures InScope(log[s].live, c) && StillClaimed(log[g].live, c)
    ensures AboutClaim(log[g].job, c.claimed) && (log[g].openPr.Some? ==> log[g].openPr == log[g].job.prNumber)
    ensures "agent:paused" !in log[g].live.labels && "agent:manual-only" !in log[g].live.labels
  {
    hide Observe, InOrder, Timely;
    var before := log[..i];
    GoodAt(log, c, i);
    r, s, g := LevelMeans(before);
    assert forall k :: 0 <= k < i ==> before[k] == log[k];
    GoodAt(log, c, s);
    GoodAt(log, c, g);
  }

  lemma RenewalRule(log: seq<Act>, c: Rules, r: nat)
    requires Good(log, c) && r < |log| && log[r].Renewed?
    ensures log[r].at >= Observe(log[..r]).clock && c.claimed.leaseOwner == Some(log[r].owner)
  {
    GoodAt(log, c, r);
  }

  /** In the tables: at the renewal of a mutation the job held its lease, as the owner that claimed it, unexpired at
      the renewal's reading, and after it the lease runs for its full time from that reading. */
  lemma MutationsLeased(log: seq<Act>, c: Rules, h: Past, i: nat) returns (r: nat, key: string)
    requires Good(log, c) && i < |log| && Mutates(log[i])
    requires IsPast(h, c.claimed.id) && Inv(h.views[0]) && Backed(log, c, h)
    ensures r < i && log[r].Renewed? && c.claimed.leaseOwner == Some(log[r].owner) && log[r].at < |h.txs|
    ensures forall k :: r <= k < i ==> !Stales(log[k])
    ensures h.txs[log[r].at] == Tx(true, StoreActions.Renew(c.claimed.id, log[r].owner, c.seconds, log[r].now))
    ensures HoldsLive(h.views[log[r].at], c.claimed.id, key, log[r].owner, log[r].now)
    ensures RunsUntil(h.views[log[r].at + 1], c.claimed.id, key, log[r].owner, log[r].now + c.seconds)
  {
    hide Good, Observe, Proper, IsPast, Inv, HoldsLive, RunsUntil, AboutClaim, StillClaimed, InScope;
    var s, g;
    r, s, g := MutationsGuarded(log, c, i);
    RenewalRule(log, c, r);
    key := RenewedHolds(h, c.claimed.id, c.seconds, log[r].owner, log[r].now, log[r].at);
  }

  lemma ObserveNext(log: seq<Act>, n: nat)
    requires 0 < n <= |log|
    ensures Observe(log[..n]) == Advance(Observe(log[..n - 1]), log[n - 1])
  {
    assert log[..n][..n - 1] == log[..n - 1];
    hide Advance;
  }

  lemma ClockAdvances(m: Monitor, a: Act)
    requires Timely(m, a)
    ensures m.clock <= Advance(m, a).clock
  {
    hide AdvancePrep, AdvanceWork, AdvanceTally, AdvanceRead, AdvanceTree, AdvanceCourse;
  }

  lemma {:induction false} RenewalsGrow(log: seq<Act>, c: Rules, r: nat, n: nat)
    requires Good(log, c) && r < n <= |log| && log[r].Renewed?
    ensures Observe(log[..n]).clock > log[r].at
  {
    hide Observe, AdvancePrep, AdvanceWork, AdvanceTally, AdvanceRead, AdvanceTree, AdvanceCourse;
    ObserveNext(log, n);
    if r < n - 1 {
      RenewalsGrow(log, c, r, n - 1);
      assert Proper(Observe(log[..n - 1]), log[n - 1], c);
      ClockAdvances(Observe(log[..n - 1]), log[n - 1]);
    }
  }

  /** Different entries are different transactions, so no renewal serves two mutations. */
  lemma RenewalsDiffer(log: seq<Act>, c: Rules, r: nat, s: nat)
    requires Good(log, c) && r < s < |log| && log[r].Renewed? && log[s].Renewed?
    ensures log[r].at < log[s].at
  {
    hide Good, Observe;
    RenewalsGrow(log, c, r, s);
    RenewalRule(log, c, s);
  }

  /** Every push goes to the claimed branch and follows a non-empty validation round in which every command passed,
      with no implementer turn in between. */
  lemma PushesValidated(log: seq<Act>, c: Rules, i: nat) returns (j: nat)
    requires Good(log, c) && i < |log| && log[i].Pushed?
    ensures log[i].branch == c.claimed.branch
    ensures j < i && log[j].Round? && Passed(log[j].results)
    ensures forall k :: j < k < i ==> !ImplementerTurn(log[k])
  {
    hide Observe, InOrder, Timely;
    GoodAt(log, c, i);
    j := ValidatedMeans(log[..i]);
    assert forall k :: 0 <= k < i ==> log[..i][k] == log[k];
  }

  /** The first push of a run also follows an inspection, since the last implementer turn, that found a change
      beyond the validation gate, or the gate where the claimed issue asks for it. */
  lemma FirstPushSubstantive(log: seq<Act>, c: Rules, i: nat) returns (j: nat)
    requires Good(log, c) && i < |log| && log[i].Pushed? && log[i].first
    ensures j < i && log[j].Observed? && forall k :: j < k < i ==> !ImplementerTurn(log[k])
    ensures (exists p :: p in log[j].paths && p != QUALITY_GATE) ||
      (QUALITY_GATE in log[j].paths && AsksForGate(c.claimed.snapshot))
  {
    hide Observe, InOrder, Timely;
    GoodAt(log, c, i);
    j := SubstantiveMeans(log[..i]);
    assert forall k :: 0 <= k < i ==> log[..i][k] == log[k];
    GoodAt(log, c, j);
  }

  /** The first push goes to a branch its guard saw absent, or to the branch of a pull request that the run found
      open and that the guarded row names as its own. */
  lemma FirstPushToOwnBranch(log: seq<Act>, c: Rules, i: nat) returns (g: nat, l: nat)
    requires Good(log, c) && i < |log| && log[i].Pushed? && log[i].first
    ensures g < i && log[g].Guarded? && (forall k :: g <= k < i ==> !Stales(log[k]))
    ensures !log[g].allow ==> !log[g].branchExists
    ensures log[g].allow ==>
      l < g && log[l] == LookedUp(c.claimed.branch, log[g].job.prNumber) && log[g].job.prNumber.Some?
  {
    var before := log[..i];
    hide Observe, InOrder, Timely;
    GoodAt(log, c, i);
    g := BranchOkMeans(before);
    l := 0;
    assert forall k :: 0 <= k < i ==> before[k] == log[k];
    if log[g].allow {
      l :| FoundOwn(before, g, l);
      GoodAt(log, c, l);
    }
  }

  /** A pull request is created only on the claimed branch, after a counted attempt, and after a look-up on that
      branch found none, with no mutation, turn or round in between. */
  lemma CreatesOnlyWhenAbsent(log: seq<Act>, c: Rules, i: nat) returns (j: nat)
    requires Good(log, c) && i < |log| && log[i].PrWritten? && log[i].created
    ensures log[i].branch == c.claimed.branch && Begun(log[..i]) > 0
    ensures j < i && log[j] == LookedUp(c.claimed.branch, None) && forall k :: j <= k < i ==> !Stales(log[k])
  {
    BegunObserved(log[..i]);
    hide Observe, InOrder, Timely;
    GoodAt(log, c, i);
    j := AbsentMeans(log[..i]);
    assert forall k :: 0 <= k < i ==> log[..i][k] == log[k];
    GoodAt(log, c, j);
  }

  /** No provider works before the claim was compared with the live issue: same content, routing and scope. */
  lemma TurnsMatched(log: seq<Act>, c: Rules, i: nat) returns (j: nat)
    requires Good(log, c) && i < |log| && log[i].Turn?
    ensures j < i && log[j].Matched? && StillClaimed(log[j].live, c) && InScope(log[j].live, c)
  {
    hide Observe, InOrder, Timely;
    GoodAt(log, c, i);
    j := MatchedMeans(log[..i]);
    GoodAt(log, c, j);
  }

  /** The number of provider turns in a trace. */
  function Turns(log: seq<Act>): nat {
    if log == [] then 0 else Turns(log[..|log| - 1]) + if log[|log| - 1].Turn? then 1 else 0
  }

  lemma {:induction false} TurnsObserved(log: seq<Act>)
    ensures Observe(log).turns == Turns(log)
  {
    hide AdvancePrep, AdvanceWork, AdvanceTally, AdvanceRead, AdvanceTree, AdvanceCourse, AdvanceClock;
    if log != [] {
      TurnsObserved(log[..|log| - 1]);
    }
  }

  /** The trace records a transition to PR_OPEN. */
  predicate HasOpenings(log: seq<Act>) {
    exists i :: 0 <= i < |log| && Opens(log[i])
  }

  lemma {:induction false} PrOpenObserved(log: seq<Act>)
    ensures Observe(log).prOpen <==> HasOpenings(log)
  {
    hide AdvancePrep, AdvanceWork, AdvanceTally, AdvanceRead, AdvanceTree, AdvanceCourse, AdvanceClock;
    if log != [] {
      var n := |log| - 1;
      PrOpenObserved(log[..n]);
      if i :| 0 <= i < n && Opens(log[i]) {
        assert Opens(log[..n][i]);
      }
    }
  }

  /** The number of counted attempts in a trace. */
  function Begun(log: seq<Act>): nat {
    if log == [] then 0 else Begun(log[..|log| - 1]) + if log[|log| - 1].Began? then 1 else 0
  }

  lemma {:induction false} BegunObserved(log: seq<Act>)
    ensures Observe(log).begun == Begun(log)
  {
    hide AdvancePrep, AdvanceWork, AdvanceTally, AdvanceRead, AdvanceTree, AdvanceCourse, AdvanceClock;
    if log != [] {
      BegunObserved(log[..|log| - 1]);
    }
  }

  lemma {:induction false} BegunGrows(log: seq<Act>, i: nat)
    requires i <= |log|
    ensures Begun(log[..i]) <= Begun(log)
    decreases |log|
  {
    if i < |log| {
      BegunGrows(log[..|log| - 1], i);
      assert log[..|log| - 1][..i] == log[..i];
    } else {
      assert log[..i] == log;
    }
  }

  /** A counted attempt serves the retry request. */
  lemma {:induction false} ServedObserved(log: seq<Act>)
    ensures Begun(log) > 0 ==> Observe(log).tally.served
  {
    hide AdvancePrep, AdvanceWork, AdvanceRead, AdvanceTree, AdvanceCourse, AdvanceClock;
    if log != [] {
      ServedObserved(log[..|log| - 1]);
    }
  }
}

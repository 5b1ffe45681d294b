/** Queued jobs that still hold a lease, and runs that show which promises the tables do not give. */
module Witnesses {
  import opened Types
  import opened StoreSpec
  import opened StoreActions
  import opened StoreInvariant
  import opened StoreSteps
  import opened StoreRuns

  // ---- queued jobs that still hold a lease ------------------------------------------------------------------

  predicate QueuedWithLease(db: Db, id: JobId) {
    id in db.jobs && db.jobs[id].state == Queued && Leased(db, id)
  }

  /** A job that is queued with a lease had that lease before. */
  lemma QueuedLeaseIsOld(db: Db, a: Action, id: JobId)
    requires Inv(db) && Enabled(db, a) && QueuedWithLease(Next(db, a), id)
    ensures Leased(db, id) && id in db.jobs && Held(db.jobs[id]) && db.jobs[id].id == id && db.jobs[id].state in HOLDERS
  {
    hide Inv;
    var r := Next(db, a);
    NextLeases(db, a);
    var k :| k in r.leases && r.leases[k].jobId == id;
    assert KeptLease(a, db, r, k) || NewLease(a, db, r, k);
    LeaseHasRow(db, k);
  }

  lemma LeaseHasRow(db: Db, k: string)
    requires Inv(db) && k in db.leases
    ensures db.leases[k].jobId in db.jobs
    ensures var j := db.jobs[db.leases[k].jobId]; Held(j) && j.id == db.leases[k].jobId && j.state in HOLDERS
  {
  }

  lemma MoveDropsLease(db: Db, id: JobId, m: Move, now: int)
    requires id in db.jobs && LegalMove(m) && QueuedWithLease(Transition(db, id, m, now), id)
    ensures db.jobs[id].state == Queued
  {
  }

  lemma CommandOrigin(db: Db, id: JobId, c: Types.Command, now: int)
    requires id in db.jobs && QueuedWithLease(Control(db, id, c, now), id) && db.jobs[id].state in HOLDERS - {Queued}
    ensures c in {Resume, Retry} && db.jobs[id].state == PrOpen
  {
  }

  lemma QueuedWriter(db: Db, a: Action, id: JobId)
    requires Inv(db) && Enabled(db, a) && QueuedWithLease(Next(db, a), id) && !QueuedWithLease(db, id)
    ensures id in db.jobs && db.jobs[id].state in HOLDERS - {Queued} && Leased(db, id) && WritesState(a, id)
  {
    hide Inv, Next, Enabled;
    QueuedLeaseIsOld(db, a, id);
    NextRows(db, a);
    assert RowStep(a, db.jobs[id], Next(db, a).jobs[id]);
  }

  /** A job becomes queued with a lease exactly by an explicit requeue of an open pull request that kept its
      lease. */
  lemma BecomesQueuedWithLeaseIff(db: Db, a: Action, id: JobId)
    requires Inv(db) && Enabled(db, a) && !QueuedWithLease(db, id)
    ensures QueuedWithLease(Next(db, a), id) <==>
      IsRequeue(a, id) && id in db.jobs && db.jobs[id].state == PrOpen && Leased(db, id)
  {
    if QueuedWithLease(Next(db, a), id) {
      QueuedWithLeaseOrigin(db, a, id);
    } else if IsRequeue(a, id) && id in db.jobs && db.jobs[id].state == PrOpen {
      assert Next(db, a).leases == db.leases && Next(db, a).jobs[id].state == Queued;
    }
  }

  lemma QueuedWithLeaseOrigin(db: Db, a: Action, id: JobId)
    requires Inv(db) && Enabled(db, a) && QueuedWithLease(Next(db, a), id) && !QueuedWithLease(db, id)
    ensures IsRequeue(a, id) && id in db.jobs && db.jobs[id].state == PrOpen && Leased(db, id)
  {
    QueuedWriter(db, a, id);
    hide Inv;
    match a
    case Transit(_, m, now) => MoveDropsLease(db, id, m, now);
    case Reap(_, order, now) => NotReaped(db, order, id, now);
    case Command(_, c, now) => CommandOrigin(db, id, c, now);
    case ClaimNext(_, _) =>
  }

  lemma NotReaped(db: Db, order: seq<JobId>, id: JobId, now: int)
    requires NoDuplicates(order) && Ids(order) <= db.jobs.Keys && Leased(ReapAll(db, order, now), id) && id in db.jobs
    ensures id in ReapAll(db, order, now).jobs && ReapAll(db, order, now).jobs[id] == db.jobs[id]
  {
  }

  /** A claim of a runnable job is rejected exactly when its row still carries a lease, which is then stored under
      another key than the row's. */
  lemma ClaimRejectedIff(db: Db, id: JobId, args: ClaimArgs)
    requires Inv(db) && Runnable(db, id, args)
    ensures Claim(db, id, args) == db <==> Held(db.jobs[id])
    ensures Held(db.jobs[id]) ==> exists k :: k != db.jobs[id].key && HoldsKey(db, id, k)
  {
    LeasedIffHeld(db, id);
    if Leased(db, id) {
      var k :| k in db.leases && db.leases[k].jobId == id;
      assert HoldsKey(db, id, k);
    } else {
      assert Claim(db, id, args).jobs[id].state == Running;
    }
  }

  // ---- building runs ------------------------------------------------------------------------------------------

  lemma Extend(states: seq<Db>, actions: seq<Action>, a: Action) returns (states': seq<Db>, actions': seq<Action>)
    requires IsRun(states, actions) && |states| == |actions| + 1 && Enabled(states[|actions|], a)
    ensures actions' == actions + [a] && states' == states + [Next(states[|actions|], a)] && IsRun(states', actions')
    ensures |states'| == |actions'| + 1 && states'[|actions'|] == Next(states[|actions|], a)
  {
    states', actions' := states + [Next(states[|actions|], a)], actions + [a];
    forall i | 0 <= i < |actions'| ensures StepAt(states', actions', i) {
      assert i < |actions| ==> StepAt(states, actions, i);
    }
  }

  /** At time 10 the lease of job "j" has run out and a reap recovers exactly this job. */
  lemma ExtendReap(states: seq<Db>, actions: seq<Action>, scope: Option<set<JobId>>)
    returns (states': seq<Db>, actions': seq<Action>)
    requires IsRun(states, actions) && |states| == |actions| + 1 && scope in {None, Some({"j"})}
    requires states[|actions|].leases == map["k" := Lease("j", "w", 10)] && states[|actions|].jobs.Keys == {"j"}
    ensures ExpiredLease(states[|actions|], "j", 10)
    ensures actions' == actions + [Reap(scope, ["j"], 10)] && states' == states + [ReapOne(states[|actions|], "j", 10)]
    ensures IsRun(states', actions') && |states'| == |actions'| + 1
  {
    hide IsRun;
    var db := states[|actions|];
    assert db.leases["k"].jobId == "j" && db.leases["k"].expiresAt <= 10;
    assert Reapable(db, scope, 10) == {"j"} == Ids(["j"]);
    assert ReapAll(db, ["j"], 10) == ReapOne(db, "j", 10) by {
      assert ["j"][..0] == [];
    }
    states', actions' := Extend(states, actions, Reap(scope, ["j"], 10));
  }

  const ISSUE := Snapshot("r", 1, "t", "b", "open", {}, 0)
  const ROUTING := Routing("codex", false, None)

  function Args(limit: int, now: int): ClaimArgs {
    ClaimArgs("w", 10, limit, map["codex" := 2], now)
  }

  /** The clock readings never decrease. */
  predicate Ordered(actions: seq<Action>) {
    forall i, j :: 0 <= i < j < |actions| ==> actions[i].Time() <= actions[j].Time()
  }

  /** The intakes of the jobs "j" and "i". */
  function IntakeJ(): Action {
    Ensure("j", ISSUE, ROUTING, "b", "k", 0)
  }

  function IntakeI(key: string, now: int): Action {
    Ensure("i", ISSUE.(number := 2), ROUTING, "b2", key, now)
  }

  /** The late part of an operator's retry: the live revision is accepted, then its routing and key are written. */
  function AcceptLive(now: int): Action {
    Accept("j", ISSUE.(labels := {"scope"}), now)
  }

  function NewKey(now: int): Action {
    Update("j", NO_PATCH.(routing := Some(ROUTING), key := Some("k2")), now)
  }

  function Kept(to: JobState): Move {
    Move(to, None, [], None, Some(false))
  }

  function Plain(to: JobState): Move {
    Move(to, None, [], None, None)
  }

  /** The row of job "j" as it is taken in. */
  function Taken(key: string): Job {
    NewJob("j", ISSUE, ROUTING, "b", key, 0)
  }

  lemma TakenRun() returns (states: seq<Db>, actions: seq<Action>)
    ensures IsRun(states, actions) && |states| == 2 && actions == [IntakeJ()]
    ensures states[1] == EMPTY.(jobs := map["j" := Taken("k")], events := [Event("j", 0, Created)])
  {
    states, actions := Extend([EMPTY], [], IntakeJ());
  }

  /** The only runnable job is the only legal choice. */
  lemma OnlyChoice(db: Db, id: JobId, args: ClaimArgs)
    requires Runnable(db, id, args) && (forall x :: x in db.jobs && x != id ==> db.jobs[x].state != Queued)
    requires |LiveKeys(db, args.now)| < args.globalLimit
    ensures LegalChoice(db, args, Some(id))
  {
  }

  /** Job "j" is taken in and claimed at time 0 under key "k", with a lease until 10. */
  lemma ClaimedRun(limit: int) returns (states: seq<Db>, actions: seq<Action>)
    requires limit > 0
    ensures IsRun(states, actions) && |actions| == 2 && |states| == 3
    ensures actions == [IntakeJ(), ClaimNext(Args(limit, 0), Some("j"))]
    ensures states[2] == EMPTY.(
        jobs := map["j" := Taken("k").(
          state := Running, leaseOwner := Some("w"), leaseExpiresAt := Some(10), phase := "preflight")],
        leases := map["k" := Lease("j", "w", 10)], events := [Event("j", 0, Created), Event("j", 0, Claimed)])
  {
    hide IsRun;
    states, actions := TakenRun();
    var db := states[1];
    assert LiveKeys(db, 0) == {} && ProviderKeys(db, "codex", 0) == {};
    OnlyChoice(db, "j", Args(limit, 0));
    states, actions := Extend(states, actions, ClaimNext(Args(limit, 0), Some("j")));
  }

  function OpenActions(): seq<Action> {
    [IntakeJ(), ClaimNext(Args(2, 0), Some("j")), Update("j", NO_PATCH.(prNumber := Some(7)), 1), Transit("j",
        Kept(PrOpen), 2)]
  }

  /** Its pull request is open, with the lease kept. */
  lemma OpenRun() returns (states: seq<Db>, actions: seq<Action>)
    ensures actions == OpenActions()
    ensures IsRun(states, actions) && |actions| == 4 && |states| == 5 && var db := states[4];
      db.leases == map["k" := Lease("j", "w", 10)] && db.backoff == map[] &&
      db.jobs == map["j" := Taken("k").(
        state :=
          PrOpen, leaseOwner :=
          Some("w"), leaseExpiresAt := Some(10), phase := "preflight", prNumber := Some(7), updatedAt := 2)]
  {
    hide IsRun;
    states, actions := ClaimedRun(2);
    states, actions := Extend(states, actions, Update("j", NO_PATCH.(prNumber := Some(7)), 1));
    states, actions := Extend(states, actions, Transit("j", Kept(PrOpen), 2));
  }

  // ---- the off-table edges are reachable ----------------------------------------------------------------------

  /** The last step of the run takes the job from `from` to `to`. */
  ghost predicate TakesEdge(states: seq<Db>, actions: seq<Action>, from: JobState, to: JobState) {
    && IsRun(states, actions) && |actions| > 0 && |states| == |actions| + 1
    && var n := |actions| - 1;
       "j" in states[n].jobs && "j" in states[n + 1].jobs && states[n].jobs["j"].state == from &&
         states[n + 1].jobs["j"].state == to
       && OffTable(actions[n], states[n].jobs["j"]) && to !in Allowed(from)
  }

  lemma PausedReap(states: seq<Db>, actions: seq<Action>) returns (states': seq<Db>, actions': seq<Action>)
    requires IsRun(states, actions) && |states| == |actions| + 1 && var db := states[|actions|];
      db.jobs.Keys == {"j"} && db.leases == map["k" := Lease("j", "w", 10)] &&
        db.jobs["j"].state in {Reviewing, PrOpen} &&
      db.jobs["j"].id == "j" && !db.jobs["j"].cancel
    ensures TakesEdge(states', actions', states[|actions|].jobs["j"].state, NeedsGuidance)
  {
    hide IsRun, ExpiredLease;
    var db := states[|actions|];
    states', actions' := Extend(states, actions, Command("j", Pause, 5));
    assert states'[|actions'|].jobs["j"] == db.jobs["j"].(pause := true, updatedAt := 5);
    states', actions' := ExtendReap(states', actions', None);
  }

  lemma ReviewingToNeedsGuidance() returns (states: seq<Db>, actions: seq<Action>)
    ensures TakesEdge(states, actions, Reviewing, NeedsGuidance)
  {
    hide IsRun;
    states, actions := OpenRun();
    states, actions := Extend(states, actions, Transit("j", Kept(Reviewing), 3));
    states, actions := PausedReap(states, actions);
  }

  lemma PrOpenToNeedsGuidance() returns (states: seq<Db>, actions: seq<Action>)
    ensures TakesEdge(states, actions, PrOpen, NeedsGuidance)
  {
    hide IsRun;
    states, actions := OpenRun();
    states, actions := PausedReap(states, actions);
  }

  lemma DoneRun() returns (states: seq<Db>, actions: seq<Action>)
    ensures IsRun(states, actions) && |states| == |actions| + 1
    ensures var db := states[|actions|]; "j" in db.jobs && db.jobs["j"].state == Done && db.jobs["j"].id == "j"
  {
    hide IsRun;
    states, actions := OpenRun();
    states, actions := Extend(states, actions, Transit("j", Plain(PrOpen), 3));
    states, actions := Extend(states, actions, Transit("j", Plain(Done), 4));
  }

  lemma DoneToCanceled() returns (states: seq<Db>, actions: seq<Action>)
    ensures TakesEdge(states, actions, Done, Canceled)
  {
    states, actions := DoneRun();
    states, actions := Extend(states, actions, Command("j", Types.Cancel, 5));
  }

  // ---- a blocked queue ----------------------------------------------------------------------------------------

  /** A retried job that still holds a lease under another key is chosen by every legal claim, and the claim is
      rejected, as long as no other runnable job was retried. */
  lemma RetriedIsFirst(db: Db, j: JobId, args: ClaimArgs, choice: Option<JobId>)
    requires Runnable(db, j, args) && LegalChoice(db, args, choice) && |LiveKeys(db, args.now)| < args.globalLimit
    requires db.jobs[j].retry && Leased(db, j) && forall x :: Runnable(db, x, args) && x != j ==> !db.jobs[x].retry
    ensures choice == Some(j) && Claim(db, j, args) == db
  {
  }

  /** An operator retries the open pull request: the requeue, the accepted live revision, and its new concurrency
      key. */
  lemma RetriedRun() returns (states: seq<Db>, actions: seq<Action>)
    ensures actions == OpenActions() + [Command("j", Types.Retry, 3), AcceptLive(3), NewKey(4)]
    ensures IsRun(states, actions) && |states| == |actions| + 1 && var db := states[|actions|];
      db.jobs.Keys == {"j"} && db.leases == map["k" := Lease("j", "w", 10)] && db.backoff == map[] &&
        db.jobs["j"].state == Queued &&
      db.jobs["j"].retry && !db.jobs["j"].cancel && !db.jobs["j"].pause && db.jobs["j"].key == "k2" &&
        db.jobs["j"].routing == ROUTING &&
      IsFor(db.jobs["j"], "r", 1)
  {
    hide IsRun;
    states, actions := OpenRun();
    states, actions := Extend(states, actions, Command("j", Types.Retry, 3));
    assert states[5].jobs["j"] == states[4].jobs["j"].(state := Queued, phase := "explicit-requeue", retry := true,
        updatedAt := 3);
    states, actions := Extend(states, actions, AcceptLive(3));
    states, actions := Extend(states, actions, NewKey(4));
  }

  /** While that lease exists the queue is blocked: another job is runnable, but every legal claim, at any later
      time, chooses the retried job and is rejected. */
  lemma RetryBlocksQueue() returns (states: seq<Db>, actions: seq<Action>)
    ensures actions == OpenActions() + [Command("j", Types.Retry, 3), AcceptLive(3), NewKey(4), IntakeI("k3", 5)]
    ensures Ordered(actions)
    ensures IsRun(states, actions) && |states| == |actions| + 1
    ensures forall now :: now >= 5 ==> Blocked(states[|actions|], Args(2, now))
  {
    hide IsRun;
    states, actions := RetriedRun();
    states, actions := Extend(states, actions, IntakeI("k3", 5));
    var db := states[|actions|];
    assert db.jobs["i"] == NewJob("i", ISSUE.(number := 2), ROUTING, "b2", "k3", 5);
    forall now | now >= 5 ensures Blocked(db, Args(2, now)) {
      BlockedBy(db, now);
    }
  }

  /** A job is runnable, but no legal claim serves anybody. */
  ghost predicate Blocked(db: Db, args: ClaimArgs) {
    Runnable(db, "i", args) && forall choice :: LegalChoice(db, args, choice) ==>
      choice == Some("j") && Claim(db, "j", args) == db
  }

  lemma BlockedBy(db: Db, now: int)
    requires db.jobs.Keys == {"i", "j"} && db.leases == map["k" := Lease("j", "w", 10)] && db.backoff == map[]
    requires db.jobs["i"] == NewJob("i", ISSUE.(number := 2), ROUTING, "b2", "k3", 5)
    requires var j :=
      db.jobs["j"]; j.state == Queued && j.retry && !j.cancel && !j.pause && j.key == "k2" && j.routing == ROUTING
    ensures Blocked(db, Args(2, now))
  {
    var args := Args(2, now);
    SubsetSize(LiveKeys(db, now), {"k"});
    SubsetSize(ProviderKeys(db, "codex", now), {"k"});
    assert HoldsKey(db, "j", "k");
    forall choice | LegalChoice(db, args, choice) ensures choice == Some("j") && Claim(db, "j", args) == db {
      RetriedIsFirst(db, "j", args, choice);
    }
  }

  // ---- why exclusion is about lease keys -------------------------------------------------------------------------

  /** A paused job is retried; a claim falls between the accepted revision and the new concurrency key. */
  lemma LateKeyRun() returns (states: seq<Db>, actions: seq<Action>)
    ensures actions ==
      [IntakeJ(), Command("j", Pause, 1), Command("j", Types.Retry, 2), AcceptLive(3), ClaimNext(Args(2, 4), Some("j")),
          NewKey(5)]
    ensures IsRun(states, actions) && |states| == |actions| + 1 && var db := states[|actions|];
      db.jobs.Keys == {"j"} && db.leases == map["k" := Lease("j", "w", 14)] && db.backoff == map[] &&
        IsFor(db.jobs["j"], "r", 1) &&
      db.jobs["j"].state == Running && db.jobs["j"].key == "k2" && db.jobs["j"].routing == ROUTING
  {
    hide IsRun;
    states, actions := TakenRun();
    states, actions := Extend(states, actions, Command("j", Pause, 1));
    assert states[2].jobs["j"] == Taken("k").(state := NeedsGuidance, phase := "paused", pause := true, updatedAt := 1);
    states, actions := Extend(states, actions, Command("j", Types.Retry, 2));
    assert states[3].jobs["j"] == Taken("k").(state := Queued, phase := "explicit-requeue", retry := true,
        updatedAt := 2);
    states, actions := Extend(states, actions, AcceptLive(3));
    states, actions := ClaimThenKey(states, actions);
  }

  lemma ClaimThenKey(states: seq<Db>, actions: seq<Action>) returns (states': seq<Db>, actions': seq<Action>)
    requires IsRun(states, actions) && |states| == |actions| + 1 && var db := states[|actions|];
      db.jobs.Keys == {"j"} && db.leases == map[] && db.backoff == map[] && IsFor(db.jobs["j"], "r", 1) &&
        db.jobs["j"].key == "k" &&
      db.jobs["j"].state == Queued && !db.jobs["j"].pause && !db.jobs["j"].cancel && db.jobs["j"].routing == ROUTING
    ensures actions' == actions + [ClaimNext(Args(2, 4), Some("j")), NewKey(5)]
    ensures IsRun(states', actions') && |states'| == |actions'| + 1 && var db := states'[|actions'|];
      db.jobs.Keys == {"j"} && db.leases == map["k" := Lease("j", "w", 14)] && db.backoff == map[] &&
        IsFor(db.jobs["j"], "r", 1) &&
      db.jobs["j"].state == Running && db.jobs["j"].key == "k2" && db.jobs["j"].routing == ROUTING
  {
    hide IsRun;
    var db := states[|actions|];
    assert LiveKeys(db, 4) == {} && ProviderKeys(db, "codex", 4) == {};
    OnlyChoice(db, "j", Args(2, 4));
    states', actions' := Extend(states, actions, ClaimNext(Args(2, 4), Some("j")));
    states', actions' := Extend(states', actions', NewKey(5));
  }

  /** So two running jobs may carry the same concurrency key in their rows; their leases still differ. */
  lemma RowKeysMayCoincide() returns (states: seq<Db>, actions: seq<Action>)
    ensures actions ==
      [IntakeJ(), Command("j", Pause, 1), Command("j", Types.Retry, 2), AcceptLive(3), ClaimNext(Args(2, 4), Some("j")),
       NewKey(5), IntakeI("k2", 6), ClaimNext(Args(2, 7), Some("i"))]
    ensures Ordered(actions)
    ensures IsRun(states, actions) && |states| == |actions| + 1 && var db := states[|actions|];
      RunsIn(db, "i") && RunsIn(db, "j") && db.jobs["i"].key == db.jobs["j"].key
  {
    hide IsRun;
    states, actions := LateKeyRun();
    states, actions := Extend(states, actions, IntakeI("k2", 6));
    var db := states[|actions|];
    assert db.jobs["i"] == NewJob("i", ISSUE.(number := 2), ROUTING, "b2", "k2", 6);
    states, actions := ClaimSecond(states, actions, 2, 7, "k2", Lease("j", "w", 14));
  }

  /** The second job "i" is claimed beside job "j". */
  lemma ClaimSecond(states: seq<Db>, actions: seq<Action>, limit: int, now: int, key: string, held: Lease)
    returns (states': seq<Db>, actions': seq<Action>)
    requires IsRun(states, actions) && |states| == |actions| + 1 && var db := states[|actions|];
      db.jobs.Keys == {"i", "j"} && db.leases == map["k" := held] && held.jobId == "j" && db.backoff == map[] &&
        key != "k" &&
      db.jobs["j"].state == Running && db.jobs["i"].state == Queued && !db.jobs["i"].pause && !db.jobs["i"].cancel &&
      db.jobs["i"].id == "i" && db.jobs["i"].key == key && db.jobs["i"].routing == ROUTING
    requires limit > if held.expiresAt > now then 1 else 0
    ensures actions' == actions + [ClaimNext(Args(limit, now), Some("i"))] && IsRun(states', actions')
    ensures |states'| == |actions'| + 1
    ensures var db, r := states[|actions|], states'[|actions'|];
      r.jobs.Keys == {"i", "j"} && r.jobs["j"] == db.jobs["j"] && r.jobs["i"].state == Running &&
        r.jobs["i"].key == key &&
      r.leases == map["k" := held, key := Lease("i", "w", now + 10)]
  {
    hide IsRun;
    var db := states[|actions|];
    var live := if held.expiresAt > now then {"k"} else {};
    assert LiveKeys(db, now) == live && ProviderKeys(db, "codex", now) <= live;
    SubsetSize(ProviderKeys(db, "codex", now), live);
    OnlyChoice(db, "i", Args(limit, now));
    assert !Leased(db, "i");
    states', actions' := Extend(states, actions, ClaimNext(Args(limit, now), Some("i")));
  }

  // ---- clock readings taken before the transaction ------------------------------------------------------------------

  /** A renewal may read the clock, wait for the database, and commit after a claim with a later reading. Then a
      lease that had run out at the claim is renewed, and more leases are unexpired than the limit allows. */
  lemma LateRenewal() returns (states: seq<Db>, actions: seq<Action>)
    ensures IsRun(states, actions) && |actions| == 5 && |states| == 6
    ensures forall i :: 0 <= i < 5 && actions[i].ClaimNext? ==> actions[i].args.globalLimit == 1
    ensures actions[3].Time() == 10 && actions[4] == Renew("j", "w", 10, 9) && HoldsKey(states[4], "j", "k")
    ensures HoldsKey(states[5], "j", "k")
    ensures states[4].leases["k"].expiresAt == 10 && states[5].leases["k"].expiresAt == 19
    ensures |Unexpired(states[5], 10)| == 2
  {
    hide IsRun;
    states, actions := ClaimedRun(1);
    states, actions := Extend(states, actions, IntakeI("k2", 1));
    assert states[3].jobs["i"] == NewJob("i", ISSUE.(number := 2), ROUTING, "b2", "k2", 1);
    states, actions := ClaimSecond(states, actions, 1, 10, "k2", Lease("j", "w", 10));
    states, actions := LateRenew(states, actions);
  }

  lemma LateRenew(states: seq<Db>, actions: seq<Action>) returns (states': seq<Db>, actions': seq<Action>)
    requires IsRun(states, actions) && |states| == |actions| + 1
    requires states[|actions|].leases == map["k" := Lease("j", "w", 10), "k2" := Lease("i", "w", 20)]
    ensures actions' == actions + [Renew("j", "w", 10, 9)] && IsRun(states', actions') && |states'| == |actions'| + 1
    ensures states' == states + [states'[|actions'|]] && HoldsKey(states[|actions|], "j", "k")
    ensures HoldsKey(states'[|actions'|], "j", "k")
    ensures states'[|actions'|].leases["k"].expiresAt == 19 && |Unexpired(states'[|actions'|], 10)| == 2
  {
    hide IsRun;
    var db := states[|actions|];
    assert db.leases["k"].jobId == "j" && db.leases["k"].owner == "w" && db.leases["k"].expiresAt > 9;
    states', actions' := Extend(states, actions, Renew("j", "w", 10, 9));
    var r := states'[|actions'|];
    assert r.leases == map["k" := Lease("j", "w", 19), "k2" := Lease("i", "w", 20)];
    assert Unexpired(r, 10) == {"k", "k2"};
  }
}

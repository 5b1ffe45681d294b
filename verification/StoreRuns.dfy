/** Safety of the job and lease tables over every run: any number of processes, any interleaving of their
    transactions and, unless said otherwise, any clock readings. */
module StoreRuns {
  import opened Types
  import opened Text
  import opened StoreSpec
  import opened StoreActions
  import opened StoreInvariant
  import opened StoreSteps

  lemma StepIs(states: seq<Db>, actions: seq<Action>, i: nat)
    requires IsRun(states, actions) && i < |actions|
    ensures Inv(states[i]) && Enabled(states[i], actions[i]) && states[i + 1] == Next(states[i], actions[i])
  {
    RunKeepsInv(states, actions, i);
    assert StepAt(states, actions, i);
  }

  lemma RowAt(states: seq<Db>, actions: seq<Action>, i: nat, id: JobId)
    requires IsRun(states, actions) && i < |actions|
    ensures id in states[i].jobs ==>
      id in states[i + 1].jobs && RowStep(actions[i], states[i].jobs[id], states[i + 1].jobs[id])
    ensures id in states[i + 1].jobs && id !in states[i].jobs ==> FreshRow(actions[i], states[i + 1].jobs[id])
  {
    StepIs(states, actions, i);
    NextRows(states[i], actions[i]);
  }

  lemma LeasesAt(states: seq<Db>, actions: seq<Action>, i: nat)
    requires IsRun(states, actions) && i < |actions|
    ensures Leases(actions[i], states[i], states[i + 1])
  {
    StepIs(states, actions, i);
    NextLeases(states[i], actions[i]);
  }

  lemma LogAt(states: seq<Db>, actions: seq<Action>, i: nat)
    requires IsRun(states, actions) && i < |actions|
    ensures Logged(actions[i], states[i], states[i + 1])
  {
    StepIs(states, actions, i);
    NextLogged(states[i], actions[i]);
  }

  /** In every run, a step takes a job along the transition table, or leaves its state alone, exactly when it is not
      one of the two off-table steps; those end in NEEDS_GUIDANCE and CANCELED. */
  lemma EdgeInTableIff(states: seq<Db>, actions: seq<Action>, i: nat, id: JobId)
    requires IsRun(states, actions) && i < |actions| && id in states[i].jobs
    ensures id in states[i + 1].jobs
    ensures MoveAllowed(states[i].jobs[id].state, states[i + 1].jobs[id].state) <==>
      !OffTable(actions[i], states[i].jobs[id])
    ensures OffTable(actions[i], states[i].jobs[id]) ==>
      states[i + 1].jobs[id].state == if actions[i].Reap? then NeedsGuidance else Canceled
  {
    RowAt(states, actions, i, id);
    StepIs(states, actions, i);
    if OffTable(actions[i], states[i].jobs[id]) {
      OffTableEnds(states[i], actions[i], id);
    }
  }

  lemma OffTableEnds(db: Db, a: Action, id: JobId)
    requires Inv(db) && Enabled(db, a) && id in db.jobs && OffTable(a, db.jobs[id])
    ensures id in Next(db, a).jobs && Next(db, a).jobs[id].state == if a.Reap? then NeedsGuidance else Canceled
  {
    if a.Reap? {
      ReapAllShape(db, a.order, a.now);
    }
  }

  // ---- exclusion --------------------------------------------------------------------------------------------

  predicate HoldsKey(db: Db, id: JobId, key: string) {
    key in db.leases && db.leases[key].jobId == id
  }

  predicate RunsIn(db: Db, id: JobId) {
    id in db.jobs && db.jobs[id].state == Running
  }

  /** The claim of `id` at step `i`: it takes the key the row carries at that moment, and no lease, expired or
      not, was stored under that key. */
  ghost predicate ClaimsAt(states: seq<Db>, actions: seq<Action>, i: int, id: JobId)
    requires |states| == |actions| + 1
  {
    && 0 <= i < |actions|
    && actions[i].ClaimNext? && actions[i].choice == Some(id)
    && id in states[i].jobs && states[i].jobs[id].key !in states[i].leases
    && HoldsKey(states[i + 1], id, states[i].jobs[id].key)
    && id in states[i + 1].jobs && states[i + 1].jobs[id].snapshot == states[i].jobs[id].snapshot
  }

  lemma StartedByClaim(db: Db, a: Action, id: JobId)
    requires Inv(db) && Enabled(db, a) && RunsIn(Next(db, a), id) && !RunsIn(db, id)
    ensures a.ClaimNext? && a.choice == Some(id) && id in db.jobs
  {
    assert id in db.jobs ==> db.jobs[id].id == id;
    NextRows(db, a);
    hide Inv, Next, Enabled;
  }

  lemma BecomesRunning(db: Db, a: Action, id: JobId)
    requires Inv(db) && Enabled(db, a) && RunsIn(Next(db, a), id) && !RunsIn(db, id)
    ensures a.ClaimNext? && a.choice == Some(id) && id in db.jobs && db.jobs[id].key !in db.leases
    ensures HoldsKey(Next(db, a), id, db.jobs[id].key) && Next(db, a).jobs[id].snapshot == db.jobs[id].snapshot
  {
    StartedByClaim(db, a, id);
    hide Inv;
    assert Next(db, a) == Claim(db, id, a.args);
  }

  lemma StaysRunning(db: Db, a: Action, r: Db, id: JobId, key: string)
    requires Leases(a, db, r) && HoldsKey(db, id, key) && RunsIn(r, id)
    ensures HoldsKey(r, id, key)
  {
  }

  /** A running job holds the lease row stored under the key it had when it was claimed, without a gap since
      that claim, although its own key column may have been rewritten meanwhile. */
  lemma {:induction false} RunningHoldsClaimKey(states: seq<Db>, actions: seq<Action>, n: nat, id: JobId)
    returns (c: nat)
    requires IsRun(states, actions) && n < |states| && RunsIn(states[n], id)
    ensures c < n && ClaimsAt(states, actions, c, id)
    ensures forall m :: c < m <= n ==> HoldsKey(states[m], id, states[c].jobs[id].key)
  {
    assert n > 0;
    if RunsIn(states[n - 1], id) {
      c := RunningHoldsClaimKey(states, actions, n - 1, id);
      LeasesAt(states, actions, n - 1);
      StaysRunning(states[n - 1], actions[n - 1], states[n], id, states[c].jobs[id].key);
    } else {
      c := n - 1;
      StepIs(states, actions, c);
      BecomesRunning(states[n - 1], actions[n - 1], id);
    }
  }

  /** No two running jobs were claimed under the same key. */
  lemma RunningKeysDiffer(states: seq<Db>, actions: seq<Action>, n: nat, a: JobId, b: JobId) returns (c: nat, d: nat)
    requires IsRun(states, actions) && n < |states| && a != b && RunsIn(states[n], a) && RunsIn(states[n], b)
    ensures c < n && d < n && ClaimsAt(states, actions, c, a) && ClaimsAt(states, actions, d, b)
    ensures states[c].jobs[a].key != states[d].jobs[b].key
  {
    c := RunningHoldsClaimKey(states, actions, n, a);
    d := RunningHoldsClaimKey(states, actions, n, b);
  }

  /** Every lease is stored under the key its job's row carries now. */
  predicate KeysMatch(db: Db) {
    forall k :: k in db.leases ==> db.leases[k].jobId in db.jobs && db.jobs[db.leases[k].jobId].key == k
  }

  /** The transaction gives a job that holds a lease another concurrency key. */
  predicate RewritesLeasedKey(db: Db, a: Action) {
    match a
    case Update(id, p, _) => id in db.jobs && Leased(db, id) && p.key.Some? && p.key.value != db.jobs[id].key
    case Refresh(id, _, _, _, k, _) =>
      id in db.jobs && Leased(db, id) && Refreshable(db.jobs[id]) && k != db.jobs[id].key
    case _ => false
  }

  lemma RowKeyKept(db: Db, a: Action, id: JobId)
    requires Inv(db) && Enabled(db, a) && id in db.jobs && !RewritesLeasedKey(db, a) && (Leased(db, id) || a.ClaimNext?)
    ensures id in Next(db, a).jobs && Next(db, a).jobs[id].key == db.jobs[id].key
  {
    assert db.jobs[id].id == id;
    NextRows(db, a);
    hide Inv, Next, Enabled;
    assert RowStep(a, db.jobs[id], Next(db, a).jobs[id]);
  }

  lemma MatchedKeyKept(db: Db, a: Action, k: string)
    requires Inv(db) && Enabled(db, a) && KeysMatch(db) && !RewritesLeasedKey(db, a) && k in Next(db, a).leases
    ensures var r := Next(db, a); r.leases[k].jobId in r.jobs && r.jobs[r.leases[k].jobId].key == k
  {
    hide Inv, Next, Enabled, RewritesLeasedKey;
    var r := Next(db, a);
    NextLeases(db, a);
    assert KeptLease(a, db, r, k) || NewLease(a, db, r, k);
    RowKeyKept(db, a, r.leases[k].jobId);
  }

  /** The rows stop matching the leases exactly by such a rewrite. */
  lemma KeysMatchIff(db: Db, a: Action)
    requires Inv(db) && Enabled(db, a) && KeysMatch(db)
    ensures KeysMatch(Next(db, a)) <==> !RewritesLeasedKey(db, a)
  {
    var r := Next(db, a);
    if RewritesLeasedKey(db, a) {
      var k :| k in db.leases && db.leases[k].jobId == a.id;
      assert r.leases[k] == db.leases[k] && r.jobs[a.id].key != k;
    } else {
      forall k | k in r.leases ensures r.leases[k].jobId in r.jobs && r.jobs[r.leases[k].jobId].key == k {
        MatchedKeyKept(db, a, k);
      }
    }
  }

  /** Two running jobs whose rows carry the keys of their leases carry different keys. */
  lemma RowKeysDiffer(db: Db, a: JobId, b: JobId)
    requires a != b && RunsIn(db, a) && RunsIn(db, b)
    requires HoldsKey(db, a, db.jobs[a].key) && HoldsKey(db, b, db.jobs[b].key)
    ensures db.jobs[a].key != db.jobs[b].key
  {
  }

  /** So in a run that never rewrites the key of a job with a lease, the keys in the rows of running jobs differ. */
  lemma {:induction false} RunKeysMatch(states: seq<Db>, actions: seq<Action>, n: nat)
    requires IsRun(states, actions) && n < |states|
    requires forall i :: 0 <= i < n ==> !RewritesLeasedKey(states[i], actions[i])
    ensures KeysMatch(states[n])
    ensures forall a, b :: a != b && RunsIn(states[n], a) && RunsIn(states[n], b) ==>
      states[n].jobs[a].key != states[n].jobs[b].key
  {
    if n > 0 {
      RunKeysMatch(states, actions, n - 1);
      StepIs(states, actions, n - 1);
      KeysMatchIff(states[n - 1], actions[n - 1]);
    }
    RunKeepsInv(states, actions, n);
    forall id | RunsIn(states[n], id) ensures HoldsKey(states[n], id, states[n].jobs[id].key) {
      LeasedIffHeld(states[n], id);
    }
    forall a, b | a != b && RunsIn(states[n], a) && RunsIn(states[n], b)
      ensures states[n].jobs[a].key != states[n].jobs[b].key
    {
      RowKeysDiffer(states[n], a, b);
    }
  }

  // ---- lease mirror and capacity ------------------------------------------------------------------------------

  /** In every reachable state, a row's lease columns are set exactly when its lease row exists, with equal
      values. */
  lemma LeaseMirror(states: seq<Db>, actions: seq<Action>, n: nat, id: JobId)
    requires IsRun(states, actions) && n < |states| && id in states[n].jobs
    ensures Leased(states[n], id) <==> states[n].jobs[id].leaseOwner.Some?
    ensures Leased(states[n], id) <==> states[n].jobs[id].leaseExpiresAt.Some?
    ensures forall k :: HoldsKey(states[n], id, k) ==> Mirrors(states[n].jobs[id], states[n].leases[k])
  {
    RunKeepsInv(states, actions, n);
    LeasedIffHeld(states[n], id);
  }

  lemma SubsetSize<T>(a: set<T>, b: set<T>)
    requires a <= b
    ensures |a| <= |b|
  {
    assert b == a + (b - a);
  }

  lemma LiveStep(db: Db, a: Action, r: Db, limit: nat, t: int)
    requires Leases(a, db, r) && t >= a.Time()
    requires a.ClaimNext? ==> a.args.globalLimit == limit
    requires |Unexpired(db, a.Time())| <= limit
    ensures |Unexpired(r, t)| <= limit
  {
    if k :| k in r.leases && NewLease(a, db, r, k) {
      SubsetSize(Unexpired(r, t), Unexpired(db, a.Time()) + {k});
    } else {
      SubsetSize(Unexpired(r, t), Unexpired(db, a.Time()));
    }
  }

  /** Clock readings taken inside the transactions do not decrease. */
  ghost predicate Clocked(actions: seq<Action>) {
    forall i, j :: 0 <= i < j < |actions| ==> actions[i].Time() <= actions[j].Time()
  }

  /** With such a clock, and the same global limit in every claim, the number of unexpired leases never exceeds the
      limit. */
  lemma {:induction false} CapacityHolds(states: seq<Db>, actions: seq<Action>, n: nat, limit: nat, t: int)
    requires IsRun(states, actions) && n < |states| && Clocked(actions)
    requires forall i :: 0 <= i < |actions| && actions[i].ClaimNext? ==> actions[i].args.globalLimit == limit
    requires n > 0 ==> t >= actions[n - 1].Time()
    ensures |Unexpired(states[n], t)| <= limit
  {
    if n == 0 {
      assert Unexpired(states[0], t) == {};
    } else {
      CapacityHolds(states, actions, n - 1, limit, actions[n - 1].Time());
      LeasesAt(states, actions, n - 1);
      LiveStep(states[n - 1], actions[n - 1], states[n], limit, t);
    }
  }

  /** The transaction makes a provider implement a job that holds a lease and that it did not implement. */
  predicate MovesLeased(db: Db, a: Action, provider: string) {
    match a
    case Update(id, p, _) =>
      id in db.jobs && Leased(db, id) && p.routing.Some? && p.routing.value.implementer == provider &&
      db.jobs[id].routing.implementer != provider
    case Refresh(id, _, r, _, _, _) =>
      id in db.jobs && Leased(db, id) && Refreshable(db.jobs[id]) && r.implementer == provider &&
      db.jobs[id].routing.implementer != provider
    case _ => false
  }

  lemma ImplementerKept(db: Db, a: Action, r: Db, id: JobId, provider: string)
    requires Inv(db) && Rows(a, db, r) && id in db.jobs && Leased(db, id) && !MovesLeased(db, a, provider)
    ensures id in r.jobs && (r.jobs[id].routing.implementer == provider ==> db.jobs[id].routing.implementer == provider)
  {
    assert RowStep(a, db.jobs[id], r.jobs[id]);
    assert db.jobs[id].id == id;
  }

  lemma ProviderStep(db: Db, a: Action, r: Db, provider: string, limit: nat, t: int)
    requires Inv(db) && Leases(a, db, r) && Rows(a, db, r) && t >= a.Time() && !MovesLeased(db, a, provider)
    requires a.ClaimNext? ==> Allowance(a.args, provider) <= limit
    requires |UnexpiredOf(db, provider, a.Time())| <= limit
    ensures |UnexpiredOf(r, provider, t)| <= limit
  {
    hide RowStep, KeysOk, StatesOk;
    var before, after := UnexpiredOf(db, provider, a.Time()), UnexpiredOf(r, provider, t);
    forall k | k in after ensures k in before || (k !in before && NewLease(a, db, r, k)) {
      if KeptLease(a, db, r, k) {
        ImplementerKept(db, a, r, db.leases[k].jobId, provider);
      } else {
        assert NewLease(a, db, r, k);
      }
    }
    if k :| k in after && NewLease(a, db, r, k) {
      NewImplementer(db, a, r, k);
      SubsetSize(after, before + {k});
    } else {
      SubsetSize(after, before);
    }
  }

  /** A claim does not change who implements the job. */
  lemma NewImplementer(db: Db, a: Action, r: Db, k: string)
    requires Inv(db) && Rows(a, db, r) && NewLease(a, db, r, k)
    ensures var id := r.leases[k].jobId;
      id in db.jobs && id in r.jobs && r.jobs[id].routing.implementer == db.jobs[id].routing.implementer
  {
    assert RowStep(a, db.jobs[r.leases[k].jobId], r.jobs[r.leases[k].jobId]);
  }

  /** With such a clock, and claims that allow a provider at most `limit` jobs, its unexpired leases never exceed the
      limit, as long as nobody makes it the implementer of a job that holds a lease. */
  lemma {:induction false} ProviderCapacityHolds(
    states: seq<Db>, actions: seq<Action>, n: nat, provider: string, limit: nat, t: int)
    requires IsRun(states, actions) && n < |states| && Clocked(actions) && (n > 0 ==> t >= actions[n - 1].Time())
    requires forall i :: 0 <= i < n && actions[i].ClaimNext? ==> Allowance(actions[i].args, provider) <= limit
    requires forall i :: 0 <= i < n ==> !MovesLeased(states[i], actions[i], provider)
    ensures |UnexpiredOf(states[n], provider, t)| <= limit
  {
    if n == 0 {
      assert UnexpiredOf(states[0], provider, t) == {};
    } else {
      var db, a := states[n - 1], actions[n - 1];
      ProviderCapacityHolds(states, actions, n - 1, provider, limit, a.Time());
      StepIs(states, actions, n - 1);
      NextLeases(db, a);
      NextRows(db, a);
      hide Inv, Next, Enabled, Rows, Leases;
      ProviderStep(db, a, states[n], provider, limit, t);
    }
  }

  /** The key of the lease of a job that is moved to another provider. */
  ghost predicate MovesLive(db: Db, a: Action, provider: string, k: string) {
    MovesLeased(db, a, provider) && k in Unexpired(db, a.Time()) && db.leases[k].jobId == a.id
  }

  lemma MovedCounts(db: Db, a: Action, provider: string, k: string)
    requires Inv(db) && MovesLive(db, a, provider, k)
    ensures UnexpiredOf(Next(db, a), provider, a.Time()) == UnexpiredOf(db, provider, a.Time()) + {k}
    ensures k !in UnexpiredOf(db, provider, a.Time())
  {
    var r := Next(db, a);
    assert r.leases == db.leases;
    forall x | x in db.leases && x != k ensures r.jobs[db.leases[x].jobId] == db.jobs[db.leases[x].jobId] {
      assert db.leases[x].jobId != db.leases[k].jobId;
    }
  }

  lemma NotMoved(db: Db, a: Action, provider: string)
    requires Inv(db) && MovesLeased(db, a, provider) && forall k :: !MovesLive(db, a, provider, k)
    ensures UnexpiredOf(Next(db, a), provider, a.Time()) <= UnexpiredOf(db, provider, a.Time())
  {
    var r := Next(db, a);
    assert r.leases == db.leases;
    forall x | x in UnexpiredOf(r, provider, a.Time()) ensures x in UnexpiredOf(db, provider, a.Time()) {
      assert !MovesLive(db, a, provider, x);
    }
  }

  /** Exactly so a provider gets beyond its limit: it has as many unexpired leases as it may, and is made to implement
      another job with an unexpired lease. */
  lemma ProviderLimitIff(db: Db, a: Action, provider: string, limit: nat)
    requires Inv(db) && Enabled(db, a) && |UnexpiredOf(db, provider, a.Time())| <= limit
    requires a.ClaimNext? ==> Allowance(a.args, provider) <= limit
    ensures |UnexpiredOf(Next(db, a), provider, a.Time())| > limit <==>
      |UnexpiredOf(db, provider, a.Time())| == limit && exists k :: MovesLive(db, a, provider, k)
  {
    if k :| MovesLive(db, a, provider, k) {
      MovedCounts(db, a, provider, k);
    } else if MovesLeased(db, a, provider) {
      NotMoved(db, a, provider);
      SubsetSize(UnexpiredOf(Next(db, a), provider, a.Time()), UnexpiredOf(db, provider, a.Time()));
    } else {
      NextLeases(db, a);
      NextRows(db, a);
      hide Inv, Next, Enabled, Rows, Leases;
      ProviderStep(db, a, Next(db, a), provider, limit, a.Time());
    }
  }

  // ---- expired leases ---------------------------------------------------------------------------------------------

  /** A lease that has run out is never renewed: while its row exists it stays what it was, as long as no clock
      reading is before its end. So nothing revives a lease between its listing and its reap. */
  lemma {:induction false} ExpiredStaysExpired(states: seq<Db>, actions: seq<Action>, i: nat, n: nat, key: string)
    requires IsRun(states, actions) && i <= n < |states|
    requires forall m :: i <= m <= n ==> key in states[m].leases
    requires forall m :: i <= m < n ==> actions[m].Time() >= states[i].leases[key].expiresAt
    ensures states[n].leases[key] == states[i].leases[key]
  {
    if i < n {
      ExpiredStaysExpired(states, actions, i, n - 1, key);
      LeasesAt(states, actions, n - 1);
      assert KeptLease(actions[n - 1], states[n - 1], states[n], key) ||
        NewLease(actions[n - 1], states[n - 1], states[n], key);
    }
  }

  // ---- the claimed snapshot ----------------------------------------------------------------------------------

  /** From a claim until the job is queued again, the claimed specification stays what it was. */
  lemma {:induction false} ClaimedSnapshotStable(states: seq<Db>, actions: seq<Action>, c: nat, n: nat, id: JobId)
    requires IsRun(states, actions) && c < n < |states| && ClaimsAt(states, actions, c, id)
    requires forall m :: c < m < n && id in states[m].jobs ==> states[m].jobs[id].state != Queued
    ensures id in states[n].jobs && states[n].jobs[id].snapshot == states[c].jobs[id].snapshot
  {
    if n > c + 1 {
      ClaimedSnapshotStable(states, actions, c, n - 1, id);
      RowAt(states, actions, n - 1, id);
    }
  }

  // ---- attempts and the branch ----------------------------------------------------------------------------------

  /** Providers return a conversation with every accepted turn. */
  ghost predicate Conversing(actions: seq<Action>) {
    forall i :: 0 <= i < |actions| && actions[i].Begin? ==> actions[i].conversation.Some?
  }

  predicate Conversed(j: Job) {
    j.attempt > 0 ==> j.conversation.Some?
  }

  /** A counted attempt implies a stored conversation. */
  lemma {:induction false} AttemptsHaveConversations(states: seq<Db>, actions: seq<Action>, n: nat, id: JobId)
    requires IsRun(states, actions) && n < |states| && Conversing(actions) && id in states[n].jobs
    ensures Conversed(states[n].jobs[id])
  {
    if n > 0 {
      RowAt(states, actions, n - 1, id);
      if id in states[n - 1].jobs {
        AttemptsHaveConversations(states, actions, n - 1, id);
      }
    }
  }

  /** Hence the attempt counter never goes back, and the branch is fixed once an attempt was counted. */
  lemma {:induction false} AttemptsFixBranch(states: seq<Db>, actions: seq<Action>, i: nat, n: nat, id: JobId)
    requires IsRun(states, actions) && i <= n < |states| && Conversing(actions) && id in states[i].jobs
    ensures id in states[n].jobs && states[i].jobs[id].attempt <= states[n].jobs[id].attempt
    ensures states[i].jobs[id].attempt > 0 ==> states[n].jobs[id].branch == states[i].jobs[id].branch
  {
    if i < n {
      AttemptsFixBranch(states, actions, i, n - 1, id);
      RowAt(states, actions, n - 1, id);
      AttemptsHaveConversations(states, actions, n - 1, id);
    }
  }

  // ---- operator stops --------------------------------------------------------------------------------------------

  /** A logged pause or cancel of the job. */
  predicate IsStop(e: Event, id: JobId, c: Types.Command) {
    e.jobId == id && e.kind.Controlled? && e.kind.command == c && c in {Pause, Cancel}
  }

  predicate IsGo(e: Event, id: JobId) {
    e.jobId == id && e.kind.Controlled? && e.kind.command in {Resume, Retry}
  }

  /** The flag a stop raises. */
  predicate Flag(j: Job, c: Types.Command) {
    if c == Pause then j.pause else j.cancel
  }

  /** The log contains this stop of `id` with no go after it. */
  ghost predicate Stopped(events: seq<Event>, id: JobId, c: Types.Command) {
    exists i :: 0 <= i < |events| && IsStop(events[i], id, c) && forall m :: i < m < |events| ==> !IsGo(events[m], id)
  }

  ghost predicate StopsOk(db: Db) {
    forall id, c :: Stopped(db.events, id, c) ==> id in db.jobs && Flag(db.jobs[id], c)
  }

  lemma StoppedBefore(before: seq<Event>, after: seq<Event>, i: nat, id: JobId, c: Types.Command)
    requires before <= after && i < |before| && IsStop(after[i], id, c)
    requires forall m :: i < m < |after| ==> !IsGo(after[m], id)
    ensures Stopped(before, id, c)
  {
    assert forall m :: i < m < |before| ==> before[m] == after[m];
  }

  /** A raised flag is only lowered by a logged go. */
  lemma FreedByGo(db: Db, a: Action, r: Db, id: JobId, c: Types.Command)
    requires Logged(a, db, r) && id in db.jobs && db.jobs[id].id == id && id in r.jobs
    requires RowStep(a, db.jobs[id], r.jobs[id]) && Flag(db.jobs[id], c)
    ensures Flag(r.jobs[id], c) || (|db.events| < |r.events| && IsGo(r.events[|db.events|], id))
  {
    if !Flag(r.jobs[id], c) {
      assert IsRequeue(a, id);
      assert Appended(a, db, r.events[|db.events|]);
    }
  }

  /** A stop already in the log keeps its effect. */
  lemma StaysHalted(db: Db, a: Action, r: Db, i: nat, id: JobId, c: Types.Command)
    requires StopsOk(db) && Logged(a, db, r) && i < |db.events| && IsStop(r.events[i], id, c)
    requires id in db.jobs ==> db.jobs[id].id == id && id in r.jobs && RowStep(a, db.jobs[id], r.jobs[id])
    requires forall m :: i < m < |r.events| ==> !IsGo(r.events[m], id)
    ensures id in r.jobs && Flag(r.jobs[id], c)
  {
    StoppedBefore(db.events, r.events, i, id, c);
    FreedByGo(db, a, r, id, c);
  }

  lemma NewStopHalts(db: Db, id: JobId, c: Types.Command, now: int)
    requires c in {Pause, Cancel} && Control(db, id, c, now).events != db.events
    ensures id in Control(db, id, c, now).jobs && Flag(Control(db, id, c, now).jobs[id], c)
  {
  }

  /** In every reachable state the flag of a logged stop is up until a resume or retry is logged. */
  lemma {:induction false} RunStopsOk(states: seq<Db>, actions: seq<Action>, n: nat)
    requires IsRun(states, actions) && n < |states|
    ensures StopsOk(states[n])
  {
    if n > 0 {
      RunStopsOk(states, actions, n - 1);
      forall id, c | Stopped(states[n].events, id, c) ensures id in states[n].jobs && Flag(states[n].jobs[id], c) {
        StopKept(states, actions, n - 1, id, c);
      }
    }
  }

  lemma StopKept(states: seq<Db>, actions: seq<Action>, n: nat, id: JobId, c: Types.Command)
    requires IsRun(states, actions) && n < |actions| && StopsOk(states[n]) && Stopped(states[n + 1].events, id, c)
    ensures id in states[n + 1].jobs && Flag(states[n + 1].jobs[id], c)
  {
    var db, a, r := states[n], actions[n], states[n + 1];
    LogAt(states, actions, n);
    StepIs(states, actions, n);
    var i :| 0 <= i < |r.events| && IsStop(r.events[i], id, c) && forall m :: i < m < |r.events| ==>
      !IsGo(r.events[m], id);
    if i < |db.events| {
      RowAt(states, actions, n, id);
      StaysHalted(db, a, r, i, id, c);
    } else {
      assert Appended(a, db, r.events[i]);
      NewStopHalts(db, id, c, a.now);
    }
  }

  lemma GoBetween(events: seq<Event>, i: nat, id: JobId, c: Types.Command) returns (m: nat)
    requires i < |events| && IsStop(events[i], id, c) && !Stopped(events, id, c)
    ensures i < m < |events| && IsGo(events[m], id)
  {
    m :| i < m < |events| && IsGo(events[m], id);
  }

  /** Between a pause or cancel of a job and a later claim of it, the log contains a resume or retry of it. */
  lemma {:induction false} ClaimAfterStop(
    states: seq<Db>, actions: seq<Action>, n: nat, i: nat, j: nat, id: JobId, c: Types.Command) returns (m: nat)
    requires IsRun(states, actions) && n < |states| && i < j < |states[n].events| && IsStop(states[n].events[i], id, c)
    requires states[n].events[j].jobId == id && states[n].events[j].kind == Claimed
    ensures i < m < j && IsGo(states[n].events[m], id)
  {
    assert n > 0;
    LogAt(states, actions, n - 1);
    var before := states[n - 1].events;
    assert forall x :: 0 <= x < |before| ==> before[x] == states[n].events[x];
    if j < |before| {
      m := ClaimAfterStop(states, actions, n - 1, i, j, id, c);
    } else {
      assert Appended(actions[n - 1], states[n - 1], states[n].events[j]);
      RunStopsOk(states, actions, n - 1);
      m := GoBetween(before, i, id, c);
    }
  }

  // ---- requeued jobs and deliveries -------------------------------------------------------------------------------

  /** A job that is queued by a resume or retry is a retry request, and can be chosen at any time exactly when no lease
      is stored under its key and its provider is not backed off. */
  lemma RequeuedIsSelectable(db: Db, id: JobId, c: Types.Command, now: int, t: int)
    requires id in db.jobs && c in {Resume, Retry}
    requires db.jobs[id].state in {NeedsGuidance, Blocked, Failed, Canceled, PrOpen}
    ensures var r := Control(db, id, c, now);
      id in r.jobs && r.jobs[id].retry &&
      (Selectable(r, id, t) <==>
       db.jobs[id].key !in db.leases && !BackedOff(db, db.jobs[id].routing.implementer, t))
  {
  }

  /** The log has a transition of the job to this phase. */
  ghost predicate WentThrough(db: Db, id: JobId, phase: string) {
    exists e :: e in db.events && e.jobId == id && e.kind.Moved? && e.kind.phase == Some(phase)
  }

  lemma PhaseIsMentioned(db: Db, id: JobId, phase: string)
    requires WentThrough(db, id, phase) && Lower(phase) == phase
    ensures HasMention(db, id, phase)
  {
    var e :| e in db.events && e.jobId == id && e.kind.Moved? && e.kind.phase == Some(phase);
    assert MatchesAt(phase, phase, 0);
    assert Mentions(e, phase);
  }

  /** Attempts that were counted before any conversation existed, and failed in the provider or, without a logged
      attempt, in the setup, are forgotten by a resume or retry of a job without a pull request. */
  lemma PollutedAttemptsForgotten(db: Db, id: JobId, c: Types.Command, now: int)
    requires id in db.jobs && c in {Resume, Retry} && db.jobs[id].state !in {Running, Reviewing, Done}
    requires db.jobs[id].conversation.None? && db.jobs[id].prNumber.None? && db.jobs[id].attempt > 0
    requires WentThrough(db, id, "provider-tool-retry") || WentThrough(db, id, "provider-tool-failure") ||
      (WentThrough(db, id, "setup-failed") && forall e :: e in db.events ==> !AttemptEventOf(e, id))
    ensures id in Control(db, id, c, now).jobs && Control(db, id, c, now).jobs[id].attempt == 0
  {
    hide HasMention, WentThrough, Lower, Control;
    PhasesAreLower();
    if WentThrough(db, id, "provider-tool-retry") {
      PhaseIsMentioned(db, id, "provider-tool-retry");
    } else if WentThrough(db, id, "provider-tool-failure") {
      PhaseIsMentioned(db, id, "provider-tool-failure");
    } else {
      PhaseIsMentioned(db, id, "setup-failed");
    }
    ResetForgets(db, id, c, now);
  }

  lemma PhasesAreLower()
    ensures Lower("provider-tool-retry") == "provider-tool-retry" && Lower("setup-failed") == "setup-failed"
    ensures Lower("provider-tool-failure") == "provider-tool-failure"
  {
  }

  lemma ResetForgets(db: Db, id: JobId, c: Types.Command, now: int)
    requires id in db.jobs && c in {Resume, Retry} && db.jobs[id].state !in {Running, Reviewing, Done}
    requires ResetsAttempts(db, id)
    ensures id in Control(db, id, c, now).jobs && Control(db, id, c, now).jobs[id].attempt == 0
  {
    hide ResetsAttempts;
  }

  /** A job whose transitions mention none of these keeps its attempts. */
  lemma OtherAttemptsKept(db: Db, id: JobId, c: Types.Command, now: int)
    requires id in db.jobs && c in {Resume, Retry}
    requires !HasMention(db, id, "provider-tool-retry") && !HasMention(db, id, "provider-tool-failure")
    requires !HasMention(db, id, "setup-failed") || exists e :: e in db.events && AttemptEventOf(e, id)
    ensures id in Control(db, id, c, now).jobs && Control(db, id, c, now).jobs[id].attempt == db.jobs[id].attempt
  {
    hide HasMention;
  }

  lemma {:induction false} DeliveriesKept(states: seq<Db>, actions: seq<Action>, i: nat, n: nat)
    requires IsRun(states, actions) && i <= n < |states|
    ensures states[i].deliveries <= states[n].deliveries
  {
    if i < n {
      DeliveriesKept(states, actions, i, n - 1);
      StepIs(states, actions, n - 1);
      NextDeliveries(states[n - 1], actions[n - 1]);
    }
  }

  lemma NextDeliveries(db: Db, a: Action)
    ensures Next(db, a).deliveries == db.deliveries + if a.Deliver? then {a.delivery} else {}
  {
    if a.Reap? {
      ReapKeepsDeliveries(db, a.order, a.now);
    }
  }

  lemma {:induction false} ReapKeepsDeliveries(db: Db, order: seq<JobId>, now: int)
    ensures ReapAll(db, order, now).deliveries == db.deliveries
    decreases |order|
  {
    if order != [] {
      ReapKeepsDeliveries(db, order[..|order| - 1], now);
    }
  }

  /** A delivery is new at most once: at every recording but the first it is already there. */
  lemma NewOnlyOnce(states: seq<Db>, actions: seq<Action>, i: nat, n: nat)
    requires IsRun(states, actions) && i < n < |actions| && actions[i].Deliver? && actions[n].Deliver?
    requires actions[i].delivery == actions[n].delivery
    ensures actions[n].delivery in states[n].deliveries
  {
    StepIs(states, actions, i);
    NextDeliveries(states[i], actions[i]);
    DeliveriesKept(states, actions, i + 1, n);
  }
}

/** The transactions of a run: those of the worker itself and those of everybody else, with the tables they lead
    through. */
module History {
  import opened Types
  import opened StoreSpec
  import opened StoreActions
  import opened StoreInvariant
  import opened ClaimedRow

  datatype Tx = Tx(own: bool, action: Action)

  /** `views[i]` are the tables before transaction `i`, the last of them the tables now. */
  datatype Past = Past(views: seq<Db>, txs: seq<Tx>)

  ghost predicate TxAt(h: Past, id: JobId, i: int)
    requires 0 <= i < |h.txs| && |h.views| == |h.txs| + 1
  {
    && Enabled(h.views[i], h.txs[i].action) && h.views[i + 1] == Next(h.views[i], h.txs[i].action)
    && (!h.txs[i].own ==> Quiet(h.views[i], h.txs[i].action, id))
  }

  /** A sequence of store transactions in which others treat the job's row quietly. */
  ghost predicate IsPast(h: Past, id: JobId) {
    |h.views| == |h.txs| + 1 && forall i :: 0 <= i < |h.txs| ==> TxAt(h, id, i)
  }

  function Grow(h: Past, own: bool, a: Action): Past
    requires |h.views| > 0
  {
    Past(h.views + [Next(h.views[|h.views| - 1], a)], h.txs + [Tx(own, a)])
  }

  lemma GrowIsPast(h: Past, id: JobId, own: bool, a: Action)
    requires IsPast(h, id) && Enabled(h.views[|h.txs|], a) && (!own ==> Quiet(h.views[|h.txs|], a, id))
    ensures IsPast(Grow(h, own, a), id)
  {
    hide Next, Enabled, Quiet;
    var g := Grow(h, own, a);
    forall i | 0 <= i < |g.txs| ensures TxAt(g, id, i) {
      assert i < |h.txs| ==> TxAt(h, id, i);
    }
  }

  lemma {:induction false} PastKeepsInv(h: Past, id: JobId, n: nat)
    requires IsPast(h, id) && Inv(h.views[0]) && n < |h.views|
    ensures Inv(h.views[n])
  {
    if n > 0 {
      PastKeepsInv(h, id, n - 1);
      assert TxAt(h, id, n - 1);
      NextKeepsInv(h.views[n - 1], h.txs[n - 1].action);
    }
  }

  /** Transaction `at` is the worker's own renewal, and it succeeds. */
  predicate RenewedAt(h: Past, id: JobId, seconds: int, owner: string, now: int, at: nat) {
    && at < |h.txs| < |h.views|
    && h.txs[at] == Tx(true, Renew(id, owner, seconds, now)) && Renewable(h.views[at], id, owner, now)
  }

  lemma RenewedStays(h: Past, own: bool, a: Action, id: JobId, seconds: int, owner: string, now: int, at: nat)
    requires RenewedAt(h, id, seconds, owner, now, at)
    ensures RenewedAt(Grow(h, own, a), id, seconds, owner, now, at)
  {
  }

  /** Transaction `at` is the worker's own renewal, and the tables refuse it. */
  predicate RefusedAt(h: Past, id: JobId, seconds: int, owner: string, now: int, at: nat) {
    && at < |h.txs| < |h.views|
    && h.txs[at] == Tx(true, Renew(id, owner, seconds, now)) && !Renewable(h.views[at], id, owner, now)
  }

  /** Transaction `at` is the worker's own backoff of this provider. */
  predicate RestedAt(h: Past, provider: string, seconds: int, now: int, at: nat) {
    at < |h.txs| && h.txs[at] == Tx(true, Backoff(provider, seconds, now))
  }

  /** View `at` has this row of the job. */
  predicate SeenAt(h: Past, id: JobId, row: Job, at: nat) {
    at < |h.views| && id in h.views[at].jobs && h.views[at].jobs[id] == row
  }

  /** As long as the job holds its lease it is active and its row names this run. */
  predicate NamedIn(db: Db, id: JobId, provider: string, conversation: string) {
    id in db.jobs &&
    (Held(db.jobs[id]) ==> db.jobs[id].state in ACTIVE && NamesRun(db.jobs[id], provider, conversation))
  }

  /** The same in all views from `from` to `until`. */
  predicate NamedThroughout(h: Past, id: JobId, provider: string, conversation: string, from: nat, until: nat) {
    from <= until < |h.views| && forall n :: from <= n <= until ==> NamedIn(h.views[n], id, provider, conversation)
  }

  lemma NamedGrows(h: Past, own: bool, a: Action, id: JobId, provider: string, conversation: string, from: nat)
    requires |h.views| == |h.txs| + 1 && NamedThroughout(h, id, provider, conversation, from, |h.txs|)
    requires NamedIn(Next(h.views[|h.txs|], a), id, provider, conversation)
    ensures NamedThroughout(Grow(h, own, a), id, provider, conversation, from, |h.txs| + 1)
  {
    hide Next, NamedIn;
  }

  /** The job holds an unexpired lease of this owner under `key`. */
  predicate HoldsLive(db: Db, id: JobId, key: string, owner: string, now: int) {
    key in db.leases && db.leases[key].jobId == id && db.leases[key].owner == owner && db.leases[key].expiresAt > now
  }

  /** The lease runs until `until`, in its row and in the job's row. */
  predicate RunsUntil(db: Db, id: JobId, key: string, owner: string, until: int) {
    && key in db.leases && db.leases[key] == Lease(id, owner, until)
    && id in db.jobs && db.jobs[id].leaseOwner == Some(owner) && db.jobs[id].leaseExpiresAt == Some(until)
  }

  lemma RenewalHolds(db: Db, id: JobId, owner: string, seconds: int, now: int) returns (key: string)
    requires Inv(db) && Renewable(db, id, owner, now)
    ensures HoldsLive(db, id, key, owner, now)
    ensures RunsUntil(RenewLease(db, id, owner, seconds, now), id, key, owner, now + seconds)
  {
    key :|
      key in db.leases && db.leases[key].jobId == id && db.leases[key].owner == owner && db.leases[key].expiresAt > now;
    RenewKeepsInv(db, id, owner, seconds, now);
  }

  lemma RenewedRow(db: Db, id: JobId, owner: string, seconds: int, now: int)
    requires Inv(db) && Renewable(db, id, owner, now)
    ensures var r :=
      RenewLease(db, id, owner, seconds, now); id in r.jobs && Held(r.jobs[id]) && r.jobs[id].leaseOwner == Some(owner)
  {
    var key := RenewalHolds(db, id, owner, seconds, now);
  }

  /** At a renewal the job held its lease, unexpired at the reading, and holds it from then on for its time. */
  lemma RenewedHolds(h: Past, id: JobId, seconds: int, owner: string, now: int, at: nat) returns (key: string)
    requires IsPast(h, id) && Inv(h.views[0]) && RenewedAt(h, id, seconds, owner, now, at)
    ensures HoldsLive(h.views[at], id, key, owner, now) && RunsUntil(h.views[at + 1], id, key, owner, now + seconds)
  {
    PastKeepsInv(h, id, at);
    assert TxAt(h, id, at);
    key := RenewalHolds(h.views[at], id, owner, seconds, now);
  }
}

/** Bounded overtaking between repositories, over every run of the store. */
module Fairness {
  import opened Types
  import opened StoreSpec
  import opened StoreActions
  import opened StoreInvariant
  import opened StoreSteps
  import opened StoreRuns

  /** Step `i` is a claim that succeeds. */
  ghost predicate Serves(states: seq<Db>, actions: seq<Action>, i: int)
    requires |states| == |actions| + 1
  {
    0 <= i < |actions| && actions[i].ClaimNext? && actions[i].choice.Some? &&
      !Leased(states[i], actions[i].choice.value)
  }

  function RepositoryOf(db: Db, a: Action): string {
    if a.ClaimNext? && a.choice.Some? && a.choice.value in db.jobs then db.jobs[a.choice.value].repository else ""
  }

  ghost predicate Waiting(db: Db, args: ClaimArgs, repository: string) {
    exists id :: id in db.jobs && Runnable(db, id, args) && db.jobs[id].repository == repository
  }

  ghost predicate NoRetries(db: Db, args: ClaimArgs) {
    forall id :: id in db.jobs && Runnable(db, id, args) ==> !db.jobs[id].retry
  }

  /** The times of the successful claims of the run strictly increase. */
  ghost predicate ClaimTimesIncrease(states: seq<Db>, actions: seq<Action>)
    requires |states| == |actions| + 1
  {
    forall i, j :: i < j && Serves(states, actions, i) && Serves(states, actions, j) ==>
      actions[i].args.now < actions[j].args.now
  }

  /** From step `lo` on, `repository` has a runnable job at every successful claim and is never served, and no
      runnable job carries a retry request. */
  ghost predicate Overtaken(states: seq<Db>, actions: seq<Action>, lo: nat, hi: nat, repository: string) {
    && IsRun(states, actions) && lo <= hi <= |actions| && ClaimTimesIncrease(states, actions)
    && forall i :: lo <= i < hi && Serves(states, actions, i) ==>
         Waiting(states[i], actions[i].args, repository) && NoRetries(states[i], actions[i].args) &&
         RepositoryOf(states[i], actions[i]) != repository
  }

  lemma {:induction false} HistoryKept(states: seq<Db>, actions: seq<Action>, i: nat, n: nat)
    requires IsRun(states, actions) && i <= n < |states|
    ensures states[i].events <= states[n].events
    ensures forall id :: id in states[i].jobs ==>
      id in states[n].jobs && states[n].jobs[id].repository == states[i].jobs[id].repository
  {
    if i < n {
      HistoryKept(states, actions, i, n - 1);
      LogAt(states, actions, n - 1);
      forall id | id in states[i].jobs
        ensures id in states[n].jobs && states[n].jobs[id].repository == states[i].jobs[id].repository
      {
        RowAt(states, actions, n - 1, id);
      }
    }
  }

  /** Every claim in the log comes from a successful claim step of the same job and time. */
  lemma {:induction false} ClaimOrigin(states: seq<Db>, actions: seq<Action>, n: nat, x: nat) returns (i: nat)
    requires IsRun(states, actions) && n < |states| && x < |states[n].events| && states[n].events[x].kind == Claimed
    ensures i < n && Serves(states, actions, i) && actions[i].args.now == states[n].events[x].at
    ensures actions[i].choice == Some(states[n].events[x].jobId) && states[n].events[x].jobId in states[i].jobs
  {
    assert n > 0;
    LogAt(states, actions, n - 1);
    if x < |states[n - 1].events| {
      assert states[n - 1].events[x] == states[n].events[x];
      i := ClaimOrigin(states, actions, n - 1, x);
    } else {
      i := n - 1;
      assert Appended(actions[i], states[i], states[n].events[x]);
      StepIs(states, actions, i);
    }
  }

  lemma ServedIsLogged(states: seq<Db>, actions: seq<Action>, i: nat)
    requires IsRun(states, actions) && i < |actions| && Serves(states, actions, i)
    ensures actions[i].choice.value in states[i].jobs && |states[i].events| < |states[i + 1].events|
    ensures states[i + 1].events[|states[i].events|] == Event(actions[i].choice.value, actions[i].args.now, Claimed)
  {
    StepIs(states, actions, i);
    assert states[i + 1] == Claim(states[i], actions[i].choice.value, actions[i].args);
  }

  /** Before step `j` the waiting repository was last claimed before time `now` of an earlier step `i`. */
  lemma WaitingIsOlder(states: seq<Db>, actions: seq<Action>, lo: nat, i: nat, j: nat, repository: string)
    requires Overtaken(states, actions, lo, j, repository) && lo <= i < j && Serves(states, actions, i)
    ensures var last :=
      LastClaim(states[j].jobs, states[j].events, repository); last.None? || last.value < actions[i].args.now
  {
    var db := states[j];
    forall e | e in db.events && IsClaimOf(db.jobs, e, repository) ensures e.at < actions[i].args.now {
      var x :| 0 <= x < |db.events| && db.events[x] == e;
      var c := ClaimOrigin(states, actions, j, x);
      HistoryKept(states, actions, c, j);
      assert RepositoryOf(states[c], actions[c]) == repository;
    }
  }

  lemma ServedIsNewer(states: seq<Db>, actions: seq<Action>, i: nat, j: nat)
    requires IsRun(states, actions) && i < j < |states| && Serves(states, actions, i)
    ensures var last := LastClaim(states[j].jobs, states[j].events, RepositoryOf(states[i], actions[i]));
            last.Some? && last.value >= actions[i].args.now
  {
    ServedIsLogged(states, actions, i);
    HistoryKept(states, actions, i + 1, j);
    HistoryKept(states, actions, i, j);
    var x := |states[i].events|;
    var e := states[j].events[x];
    assert e == states[i + 1].events[x];
    assert e in states[j].events && IsClaimOf(states[j].jobs, e, RepositoryOf(states[i], actions[i]));
  }

  /** Without retry requests a claim goes to a repository not claimed later than any waiting one. */
  lemma OldestFirst(db: Db, args: ClaimArgs, chosen: JobId, waiting: string)
    requires LegalChoice(db, args, Some(chosen)) && Waiting(db, args, waiting) && NoRetries(db, args)
    ensures var mine, theirs :=
      LastClaim(db.jobs, db.events, db.jobs[chosen].repository), LastClaim(db.jobs, db.events, waiting);
            mine.None? || (theirs.Some? && mine.value <= theirs.value)
  {
  }

  /** While a repository waits, no other repository is served twice. */
  lemma NotServedTwice(states: seq<Db>, actions: seq<Action>, lo: nat, hi: nat, repository: string, i: nat, j: nat)
    requires Overtaken(states, actions, lo, hi, repository) && lo <= i < j < hi
    requires Serves(states, actions, i) && Serves(states, actions, j)
    ensures RepositoryOf(states[i], actions[i]) != RepositoryOf(states[j], actions[j])
  {
    StepIs(states, actions, j);
    OldestFirst(states[j], actions[j].args, actions[j].choice.value, repository);
    WaitingIsOlder(states, actions, lo, i, j, repository);
    ServedIsNewer(states, actions, i, j);
  }

  /** The repositories served in the window, in order. */
  ghost function Served(states: seq<Db>, actions: seq<Action>, lo: nat, hi: nat): seq<string>
    requires |states| == |actions| + 1 && lo <= hi <= |actions|
  {
    if hi == lo then []
    else
      var before := Served(states, actions, lo, hi - 1);
      if Serves(states, actions, hi - 1) then before + [RepositoryOf(states[hi - 1], actions[hi - 1])] else before
  }

  lemma {:induction false} ServedFrom(states: seq<Db>, actions: seq<Action>, lo: nat, hi: nat, x: nat) returns (i: nat)
    requires |states| == |actions| + 1 && lo <= hi <= |actions| && x < |Served(states, actions, lo, hi)|
    ensures lo <= i < hi && Serves(states, actions, i)
    ensures Served(states, actions, lo, hi)[x] == RepositoryOf(states[i], actions[i])
  {
    if x < |Served(states, actions, lo, hi - 1)| {
      i := ServedFrom(states, actions, lo, hi - 1, x);
    } else {
      i := hi - 1;
    }
  }

  lemma {:induction false} ServedDistinct(states: seq<Db>, actions: seq<Action>, lo: nat, hi: nat, repository: string)
    requires Overtaken(states, actions, lo, hi, repository)
    ensures NoDuplicates(Served(states, actions, lo, hi))
  {
    if lo < hi {
      ServedDistinct(states, actions, lo, hi - 1, repository);
      if Serves(states, actions, hi - 1) {
        var before := Served(states, actions, lo, hi - 1);
        forall x | 0 <= x < |before| ensures before[x] != RepositoryOf(states[hi - 1], actions[hi - 1]) {
          var i := ServedFrom(states, actions, lo, hi - 1, x);
          NotServedTwice(states, actions, lo, hi, repository, i, hi - 1);
        }
      }
    }
  }

  ghost function Repositories(db: Db): set<string> {
    set id | id in db.jobs :: db.jobs[id].repository
  }

  lemma {:induction false} DistinctFit(s: seq<string>, names: set<string>)
    requires NoDuplicates(s) && forall x :: x in s ==> x in names
    ensures |s| <= |names|
  {
    if s != [] {
      var n := |s| - 1;
      forall x | x in s[..n] ensures x in names - {s[n]} {
        var k :| 0 <= k < n && s[k] == x;
      }
      DistinctFit(s[..n], names - {s[n]});
    }
  }

  /** So a waiting repository is overtaken by at most as many claims as there are other repositories. */
  lemma BoundedOvertaking(states: seq<Db>, actions: seq<Action>, lo: nat, hi: nat, repository: string)
    requires Overtaken(states, actions, lo, hi, repository)
    ensures |Served(states, actions, lo, hi)| <= |Repositories(states[hi]) - {repository}|
  {
    ServedDistinct(states, actions, lo, hi, repository);
    var served := Served(states, actions, lo, hi);
    forall r | r in served ensures r in Repositories(states[hi]) - {repository} {
      var x :| 0 <= x < |served| && served[x] == r;
      var i := ServedFrom(states, actions, lo, hi, x);
      ServedIsLogged(states, actions, i);
      HistoryKept(states, actions, i, hi);
      assert actions[i].choice.value in states[hi].jobs;
    }
    DistinctFit(served, Repositories(states[hi]) - {repository});
  }
}

/** One pull request per job, across its runs: what the store keeps of the branch and what a trace may create. */
module OnePullRequest {
  import opened Types
  import opened StoreSpec
  import opened StoreActions
  import opened StoreRuns
  import opened ClaimedRow
  import opened Trace

  /** While a pull request is open on the branch, look-ups find it. */
  predicate FindsOpen(log: seq<Act>, branch: string) {
    forall i :: 0 <= i < |log| && log[i].LookedUp? && log[i].branch == branch ==> log[i].found.Some?
  }

  predicate Creates(a: Act) {
    a.PrWritten? && a.created
  }

  /** What a run leaves in the row at step `e`: the claim, and the attempts of its trace. */
  ghost predicate RunEndsAt(states: seq<Db>, e: nat, claimed: Job, log: seq<Act>) {
    e < |states| && claimed.id in states[e].jobs && var row := states[e].jobs[claimed.id];
    AboutClaim(row, claimed) && row.attempt == claimed.attempt + Begun(log)
  }

  /** A trace that created a pull request began an attempt, so every later claim of the job has the same branch. */
  lemma CreationFixesBranch(
    states: seq<Db>, actions: seq<Action>, e: nat, n: nat, claimed: Job, c: Rules, log: seq<Act>, i: nat)
    requires IsRun(states, actions) && Conversing(actions) && RunEndsAt(states, e, claimed, log) && e <= n < |states|
    requires c.claimed == claimed && Good(log, c) && i < |log| && Creates(log[i])
    ensures claimed.id in states[n].jobs && states[n].jobs[claimed.id].branch == claimed.branch == log[i].branch
  {
    var j := CreatesOnlyWhenAbsent(log, c, i);
    BegunGrows(log, i);
    AttemptsFixBranch(states, actions, e, n, claimed.id);
  }

  /** If a run of a job created a pull request, and it stays open while look-ups answer truthfully, no later run of
      the job creates another: it has the same branch, and can only edit there. */
  lemma NoSecondPullRequest(
    states: seq<Db>, actions: seq<Action>, e: nat, d: nat, first: Rules, second: Rules, log: seq<Act>, later: seq<Act>,
        i: nat)
    requires IsRun(states, actions) && Conversing(actions) && RunEndsAt(states, e, first.claimed, log)
    requires e <= d && ClaimsAt(states, actions, d, first.claimed.id)
    requires second.claimed == states[d + 1].jobs[first.claimed.id]
    requires Good(log, first) && Good(later, second) && i < |log| && Creates(log[i])
    requires FindsOpen(later, log[i].branch)
    ensures forall k :: 0 <= k < |later| ==> !Creates(later[k])
    ensures forall k :: 0 <= k < |later| && later[k].PrWritten? ==> later[k].branch == log[i].branch
  {
    CreationFixesBranch(states, actions, e, d + 1, first.claimed, first, log, i);
    forall k | 0 <= k < |later| && later[k].PrWritten? ensures !Creates(later[k]) && later[k].branch == log[i].branch {
      assert Proper(Observe(later[..k]), later[k], second);
      if Creates(later[k]) {
        var j := CreatesOnlyWhenAbsent(later, second, k);
      }
    }
  }
}

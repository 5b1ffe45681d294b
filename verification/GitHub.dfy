/** The live guard every code mutation passes, as a verdict over the values it reads. */
module GitHub {
  import opened Types
  import opened Text
  import opened Intake

  /** `None` lets the mutation through; otherwise the reason it is refused. `openPr` is the open pull request
      found on the job's branch. */
  function GuardVerdict(
    job: Job, live: Snapshot, openPr: Option<int>, allowExistingBranch: bool, branchExists: bool): Option<string>
  {
    if Lower(live.state) != "open" then Some("issue was closed")
    else if "agent:paused" in live.labels ||
      "agent:manual-only" in live.labels then Some("issue is paused or manual-only")
    else if live.ContentHash() != job.snapshot.ContentHash() then Some("issue title or body changed after claim")
    else if Recheck(live, job.routing) != Eligible(job.routing) then Some("routing changed after claim")
    else if openPr.Some? && openPr != job.prNumber then Some("an implementation PR already exists")
    else if !allowExistingBranch && branchExists then Some("generated branch already exists")
    else None
  }

  /** The checks a worker makes on the live issue before it starts. */
  predicate ClaimStillMatches(job: Job, live: Snapshot) {
    live.ContentHash() == job.snapshot.ContentHash() && Recheck(live, job.routing) == Eligible(job.routing)
  }

  /** A job routed from the issue as it is now passes the claim check, and the guard refuses it only for a
      foreign pull request or an existing branch: never for its routing. The one exception is a chosen reviewer
      whose name is empty. */
  lemma UnchangedIssueKeepsRouting(
    job: Job, live: Snapshot, available: set<string>, openPr: Option<int>, allow: bool, exists_: bool)
    requires Route(live, available) == Eligible(job.routing) && job.snapshot.ContentHash() == live.ContentHash()
    ensures ClaimStillMatches(job, live) <==> job.routing.reviewer != Some("")
    ensures job.routing.reviewer != Some("") ==>
      (GuardVerdict(job, live, openPr, allow, exists_).None? <==>
        (openPr.None? || openPr == job.prNumber) && (allow || !exists_))
  {
    RecheckStableIff(live, available);
  }

  lemma GuardSeesNoBranch(job: Job, live: Snapshot, openPr: Option<int>, branchExists: bool)
    requires GuardVerdict(job, live, openPr, false, branchExists).None?
    ensures !branchExists
  {
  }

  /** What a passed guard establishes about the live issue. */
  lemma GuardMeans(job: Job, live: Snapshot, openPr: Option<int>, allow: bool, exists_: bool)
    requires GuardVerdict(job, live, openPr, allow, exists_).None?
    ensures live.ContentHash() == job.snapshot.ContentHash() && Lower(live.state) == "open"
    ensures "agent:ready" in live.labels && "agent:paused" !in live.labels && "agent:manual-only" !in live.labels
    ensures Selected(IMPLEMENTATION_LABELS, live.labels) == [job.routing.implementer]
    ensures openPr.Some? ==> openPr == job.prNumber
    ensures allow || !exists_
  {
  }
}

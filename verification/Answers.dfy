/** What the outside may answer a worker, and what an answer means for the job. */
module Answers {
  import opened Types

  /** The exception classes the handlers tell apart: a stale issue, a provider failure, the other expected errors
      (GitHub, workspace, store, operating system), and everything else. */
  datatype Exn = StaleIssue | ProviderError | KnownError | Unexpected

  datatype Step<+T> = Return(value: T) | Raise(exn: Exn) {
    predicate IsFailure() { Raise? }
    function PropagateFailure<U>(): Step<U> requires Raise? { Raise(exn) }
    function Extract(): T requires Return? { value }
  }

  datatype FailureKind = Quota | Authentication | ProviderTool | OtherFailure

  datatype Outcome = WorkCompleted | GuidanceNeeded | WorkBlocked | WorkFailed(kind: FailureKind) | WorkCanceled

  /** The structured part of a review; absent when the reviewer left it out. */
  datatype Findings = Findings(recommendation: string, count: int)

  datatype TurnResult = TurnResult(outcome: Outcome, conversation: Option<string>, findings: Option<Findings>)

  datatype Health = Health(authenticated: bool, limited: bool, healthy: bool)

  predicate Usable(h: Health) {
    h.authenticated && h.healthy && !h.limited
  }

  /** A review asks for repairs: it counts findings, or requests changes without counting. */
  predicate HasFindings(f: Findings) {
    f.count != 0 || f.recommendation == "request-changes"
  }

  /** The findings a review counts for; an absent count falls back to the recommendation. */
  function EffectiveFindings(f: Findings): (n: int)
    ensures n != 0 <==> HasFindings(f)
    ensures f.count != 0 ==> n == f.count
  {
    if f.count != 0 then f.count else if f.recommendation == "request-changes" then 1 else 0
  }

  /** The conversation a turn is known by: the one its result names, otherwise the one it was started with. */
  function NameOf(result: Option<string>, started: string): string {
    if result.Some? && result.value != "" then result.value else started
  }

  /** The state a provider result leads to; `None` when the work goes on. An operator's cancel or pause wins over
      the result, and quota and tool failures are retried while attempts remain. */
  function StateAfterTurn(current: Job, attempt: nat, maxAttempts: nat, outcome: Outcome): (to: Option<JobState>)
    ensures to == Some(Canceled) <==> current.cancel || (!current.pause && outcome == WorkCanceled)
    ensures to == Some(NeedsGuidance) <==> !current.cancel && (current.pause || outcome == GuidanceNeeded)
    ensures to == Some(Blocked) <==> !current.cancel && !current.pause && outcome == WorkBlocked
    ensures to == Some(Queued) <==>
      !current.cancel && !current.pause && attempt < maxAttempts &&
        outcome in {WorkFailed(Quota), WorkFailed(ProviderTool)}
    ensures to == Some(Failed) <==>
      !current.cancel && !current.pause && outcome.WorkFailed? &&
        (attempt >= maxAttempts || outcome.kind in {Authentication, OtherFailure})
    ensures to.None? <==> !current.cancel && !current.pause && outcome == WorkCompleted
  {
    if current.cancel then Some(Canceled)
    else if current.pause then Some(NeedsGuidance)
    else match outcome
      case WorkCompleted => None
      case GuidanceNeeded => Some(NeedsGuidance)
      case WorkBlocked => Some(Blocked)
      case WorkFailed(Quota) => if attempt >= maxAttempts then Some(Failed) else Some(Queued)
      case WorkFailed(ProviderTool) => if attempt < maxAttempts then Some(Queued) else Some(Failed)
      case WorkFailed(_) => Some(Failed)
      case WorkCanceled => Some(Canceled)
  }

  /** The row has an open pull request. */
  predicate HasOpenPr(row: Job) {
    row.prNumber.Some? && row.state in {PrOpen, Reviewing}
  }
}

/** What the rules of a trace say about how a run goes on and how it ends. */
module Verdicts {
  import opened Types
  import opened Answers
  import opened ClaimedRow
  import opened History
  import opened Trace

  // ---- one verdict per answer -------------------------------------------------------------------------------------

  /** An answer leads to at most one state, and then the lease is either kept or not. */
  lemma OneVerdict(m: Monitor, a: JobState, keptA: bool, b: JobState, keptB: bool, c: Rules)
    requires Leads(m, a, keptA, c) && Leads(m, b, keptB, c)
    ensures a == b && keptA == keptB
  {
  }

  lemma StopEnds(m: Monitor, to: JobState, kept: bool, c: Rules, a: Act)
    requires Leads(m, to, kept, c) && InOrder(m, a, c) && Steers(m.course.last, a) && to !in {PrOpen, Reviewing}
    ensures a.Raised? || a.Recorded?
  {
    hide Plays;
  }

  lemma OpenEnds(m: Monitor, to: JobState, kept: bool, c: Rules, a: Act)
    requires Leads(m, to, kept, c) && InOrder(m, a, c) && Steers(m.course.last, a) && to in {PrOpen, Reviewing}
    ensures a.Raised? || a.Recorded?
  {
    hide Plays;
  }

  /** An answer that leads to a state leads nowhere else: only that move, or an exception, comes next. */
  lemma VerdictEnds(m: Monitor, to: JobState, kept: bool, c: Rules, a: Act)
    requires Leads(m, to, kept, c) && InOrder(m, a, c) && Steers(m.course.last, a)
    ensures a.Raised? || a == Recorded(to, kept)
  {
    hide Leads, Steers, Plays;
    if a.Recorded? {
      OneVerdict(m, to, kept, a.to, a.kept, c);
    } else if to in {PrOpen, Reviewing} {
      OpenEnds(m, to, kept, c, a);
    } else {
      StopEnds(m, to, kept, c, a);
    }
  }

  lemma AssessedRole(m: Monitor, a: Act, c: Rules)
    requires InOrder(m, a, c) && (a.Assessed? || a.Unavailable?)
    ensures var l := m.course.last; l.LookedUp? || l.Adopted? || l.ReviewPosted? || l.Recorded?
    ensures m.course.last.LookedUp? ==> a.Assessed? && a.role.Implementer? && m.course.last.found.None?
  {
  }

  lemma TurnRole(m: Monitor, a: Act, c: Rules)
    requires InOrder(m, a, c) && a.Turn?
    ensures var l := m.course.last; l.SetUp? || l.Corrigible? || l.Assessed? || l.Recorded?
    ensures m.course.last.SetUp? ==> ImplementerTurn(a)
  {
  }

  lemma VerdictKind(m: Monitor, a: Act, c: Rules)
    requires InOrder(m, a, c) && a.Recorded?
    ensures var l := m.course.last;
      && !l.Matched? && !l.LookedUp? && (l.SetUp? ==> !l.good) && !l.Turn? && !l.Started? && (l.Waited? ==> m.prOpen)
      && !l.Observed? && !l.Listed?
  {
  }

  /** The other answers have their own next act, unless an exception comes: a run never stops without a reason. */
  lemma GoesOn(m: Monitor, a: Act, c: Rules)
    requires InOrder(m, a, c) && Steers(m.course.last, a) && !a.Raised?
    ensures var l := m.course.last;
      && (l.Matched? ==> a.LookedUp?)
      && (l.LookedUp? ==> if l.found.Some? then a.Adopted? else a.Assessed? && a.role.Implementer?)
      && (l.SetUp? && l.good ==> ImplementerTurn(a))
      && (l.Turn? ==> a.Started? && a.role == l.role)
      && (l.Started? ==> a.Waited? && a.role == l.role && a.conversation == l.conversation)
      && (l.Waited? && l.role.Implementer? && !m.prOpen ==> a.Judged?)
      && (l.Observed? ==> a.Listed?)
      && (l.Listed? ==> a.Round?)
  {
    hide Leads, MayAssess, MayTurn, Plays;
    if a.Assessed? || a.Unavailable? {
      AssessedRole(m, a, c);
    } else if a.Turn? {
      TurnRole(m, a, c);
    } else if a.Recorded? {
      VerdictKind(m, a, c);
    }
  }

  // ---- positions in the log ---------------------------------------------------------------------------------------

  /** Position `k` is the last one before `n` that decides how the run goes on. */
  ghost predicate LastBefore(log: seq<Act>, k: nat, n: nat) {
    && k < n <= |log| && Observe(log[..n]).course.last == log[k] && Steers(Observe(log[..k]).course.last, log[k])
    && forall i :: k < i < n ==> !Steers(log[k], log[i])
  }

  lemma CourseNext(log: seq<Act>, n: nat)
    requires n < |log|
    ensures Observe(log[..n + 1]) == Advance(Observe(log[..n]), log[n])
    ensures var l := Observe(log[..n]).course.last;
      Observe(log[..n + 1]).course.last == if Steers(l, log[n]) then log[n] else l
  {
    ObserveNext(log, n + 1);
    hide AdvancePrep, AdvanceWork, AdvanceTally, AdvanceRead, AdvanceTree, AdvanceClock, Observe;
  }

  lemma {:induction false} LastMeans(log: seq<Act>, n: nat) returns (k: nat)
    requires n <= |log| && !Observe(log[..n]).course.last.Nothing?
    ensures LastBefore(log, k, n)
  {
    hide Advance, Steers;
    assert log[..0] == [];
    CourseNext(log, n - 1);
    if Steers(Observe(log[..n - 1]).course.last, log[n - 1]) {
      k := n - 1;
    } else {
      k := LastMeans(log, n - 1);
    }
  }

  /** Every recorded state has its reason: the last answer before it, which leads there. */
  lemma RecordedHasReason(log: seq<Act>, c: Rules, i: nat) returns (k: nat)
    requires Good(log, c) && i < |log| && log[i].Recorded?
    ensures LastBefore(log, k, i) && Leads(Observe(log[..i]), log[i].to, log[i].kept, c)
  {
    hide Compares, Prepares, Timely, InOrder, Leads, Observe;
    GoodAt(log, c, i);
    LeadsSomewhere(Observe(log[..i]), log[i], c);
    k := LastMeans(log, i);
  }

  lemma LeadsSomewhere(m: Monitor, a: Act, c: Rules)
    requires InOrder(m, a, c) && a.Recorded?
    ensures Leads(m, a.to, a.kept, c) && !m.course.last.Nothing?
  {
  }

  lemma {:induction false} DecidedMeans(log: seq<Act>, n: nat) returns (i: nat)
    requires n <= |log| && Observe(log[..n]).course.decided.Some?
    ensures i < n && log[i] == Recorded(Observe(log[..n]).course.decided.value, false)
    ensures forall x :: i < x < n ==> !log[x].Recorded?
  {
    assert log[..0] == [] && Observe([]) == FRESH;
    hide AdvancePrep, AdvanceWork, AdvanceTally, AdvanceRead, AdvanceTree, AdvanceClock, Observe;
    ObserveNext(log, n);
    if log[n - 1].Recorded? {
      i := n - 1;
    } else {
      i := DecidedMeans(log, n - 1);
    }
  }

  /** What the result of a turn may end a run in. */
  predicate ResultExplains(outcome: Outcome, to: JobState) {
    match outcome
    case WorkCompleted => false
    case GuidanceNeeded => to == NeedsGuidance
    case WorkBlocked => to == Blocked
    case WorkCanceled => to == Canceled
    case WorkFailed(kind) => to == Failed || (to == Queued && kind in {Quota, ProviderTool})
  }

  /** What an answer may end a run in that has no pull request. */
  predicate Explains(a: Act, to: JobState) {
    match a
    case Mismatched(_, _, _) => to == NeedsGuidance
    case Assessed(_, h) =>
      if !h.authenticated then to == Failed
      else if h.limited then to in {Failed, Queued}
      else if !h.healthy then to == NeedsGuidance
      else to == Failed
    case SetUp(good) => !good && to == Blocked
    case Judged(row, _, outcome) =>
      if row.cancel then to == Canceled
      else if row.pause then to == NeedsGuidance
      else ResultExplains(outcome, to)
    case Corrigible(_) => to == Failed
    case Ahead(commits) => commits == 0 && to == Failed
    case Caught(exn, _, _, limited) =>
      (exn == StaleIssue && to == NeedsGuidance) ||
      (exn == ProviderError && (if limited.Some? then to == Queued else to in {NeedsGuidance, Queued, Failed})) ||
      (exn in {KnownError, Unexpected} && to == Failed)
    case _ => false
  }

  lemma LeadsIsExplained(m: Monitor, to: JobState, c: Rules)
    requires Leads(m, to, false, c) && to != PrOpen
    ensures Explains(m.course.last, to)
  {
  }

  /** A run ends where it does for a reason: its row stands where its last move went, and that move was asked for by the
      last answer before it. If this is not PR_OPEN, the answer is one of those that stop a run. */
  lemma EndHasReason(log: seq<Act>, c: Rules) returns (i: nat, k: nat)
    requires Good(log, c) && Observe(log).course.decided.Some?
    ensures k < i < |log| && log[i] == Recorded(Observe(log).course.decided.value, false) && LastBefore(log, k, i)
    ensures forall x :: i < x < |log| ==> !log[x].Recorded?
    ensures Leads(Observe(log[..i]), log[i].to, false, c) && (log[i].to != PrOpen ==> Explains(log[k], log[i].to))
  {
    assert log[..|log|] == log;
    hide Observe, Leads, Explains, Good, Steers;
    i := DecidedMeans(log, |log|);
    k := RecordedHasReason(log, c, i);
    if log[i].to != PrOpen {
      LeadsIsExplained(Observe(log[..i]), log[i].to, c);
    }
  }

  // ---- good work is published ---------------------------------------------------------------------------------------

  /** There is something to publish: changes to commit, or commits ahead of the default branch. */
  predicate HasWork(a: Act) {
    a == Changes(true) || (a.Ahead? && a.commits > 0)
  }

  /** The run is on its way from good work to its pull request. */
  predicate Publishing(m: Monitor) {
    var l := m.course.last;
    !m.prOpen && (HasWork(l) || l.Committed? || l.Remote? || l.Pushed? || l.PrWritten? || l.PrLabeled? ||
                  l.EvidenceWritten?)
  }

  lemma PublishingGoesOn(m: Monitor, a: Act, c: Rules)
    requires Publishing(m) && InOrder(m, a, c) && !a.Raised?
    ensures Publishing(Advance(m, a)) || a == Recorded(PrOpen, true)
  {
    hide AdvancePrep, AdvanceWork, AdvanceTally, AdvanceRead, AdvanceTree, AdvanceClock;
  }

  ghost predicate OpensWithin(log: seq<Act>, j: nat, n: nat) {
    exists i :: j < i < n <= |log| && log[i] == Recorded(PrOpen, true) && Publishing(Observe(log[..i]))
  }

  lemma {:induction false} PublishingLasts(log: seq<Act>, c: Rules, j: nat, n: nat)
    requires Good(log, c) && j < n <= |log| && HasWork(log[j]) && !Observe(log[..j]).prOpen
    requires forall i :: j < i < n ==> !log[i].Raised?
    ensures Publishing(Observe(log[..n])) || OpensWithin(log, j, n)
  {
    hide Publishing, Observe, Advance, InOrder, Compares, Prepares, Timely;
    if n == j + 1 {
      CourseNext(log, j);
      WorkIsPublishing(Observe(log[..j]), log[j]);
    } else {
      PublishingLasts(log, c, j, n - 1);
      if OpensWithin(log, j, n - 1) {
        var i :| j < i < n - 1 && log[i] == Recorded(PrOpen, true) && Publishing(Observe(log[..i]));
      } else {
        GoodAt(log, c, n - 1);
        PublishingGoesOn(Observe(log[..n - 1]), log[n - 1], c);
        CourseNext(log, n - 1);
      }
    }
  }

  lemma WorkIsPublishing(m: Monitor, a: Act)
    requires HasWork(a) && !m.prOpen
    ensures Publishing(Advance(m, a))
  {
    hide AdvancePrep, AdvanceWork, AdvanceTally, AdvanceRead, AdvanceTree, AdvanceClock;
  }

  /** What a first opening stands on, if no pull request was adopted. */
  lemma OpeningStandsOn(log: seq<Act>, c: Rules, j: nat, i: nat) returns (w: nat, e: nat)
    requires Good(log, c) && j < i < |log| && log[i] == Recorded(PrOpen, true) && Publishing(Observe(log[..i]))
    requires HasWork(log[j])
    ensures j < w < e < i && log[w].PrWritten? && log[e].EvidenceWritten?
  {
    hide Compares, Prepares, Timely, Observe, AdvanceCourse;
    GoodAt(log, c, i);
    e := LastMeans(log, i);
    assert e >= j;
    GoodAt(log, c, e);
    hide Leads;
    OpenBefore(log, e, i);
    w := LastMeans(log, e);
    assert w >= j;
    if log[w].PrLabeled? {
      GoodAt(log, c, w);
      w := LastMeans(log, w);
      assert w >= j;
    }
  }

  lemma {:induction false} OpenBefore(log: seq<Act>, k: nat, n: nat)
    requires k <= n <= |log| && !Observe(log[..n]).prOpen
    ensures !Observe(log[..k]).prOpen
  {
    hide AdvancePrep, AdvanceWork, AdvanceTally, AdvanceRead, AdvanceTree, AdvanceClock, AdvanceCourse, Observe;
    if k < n {
      ObserveNext(log, n);
      OpenBefore(log, k, n - 1);
    }
  }

  /** Substantive, validated work with something to publish is published, unless an exception comes in between: a run
      that has given its lease back wrote the pull request, its evidence, and recorded PR_OPEN. */
  lemma WorkIsPublished(log: seq<Act>, c: Rules, j: nat) returns (w: nat, e: nat, i: nat)
    requires Good(log, c) && j < |log| && HasWork(log[j]) && !HasOpenings(log[..j])
    requires forall x :: j < x < |log| ==> !log[x].Raised?
    requires var l := Observe(log).course.last; l.Recorded? && !l.kept
    ensures j < w < e < i < |log|
    ensures log[w].PrWritten? && log[e].EvidenceWritten? && log[i] == Recorded(PrOpen, true)
  {
    hide Observe, HasOpenings, Good;
    PrOpenObserved(log[..j]);
    assert log[..|log|] == log;
    PublishingLasts(log, c, j, |log|);
    i :| j < i < |log| && log[i] == Recorded(PrOpen, true) && Publishing(Observe(log[..i]));
    w, e := OpeningStandsOn(log, c, j, i);
  }
}

/** What the rules of a trace say about its turns: which review or round a turn answers, how many there are, which
    conversation the row names while the worker waits, and what a requeue and a commit stand on. */
module Turns {
  import opened Types
  import opened Answers
  import opened ClaimedRow
  import opened History
  import opened Trace
  import opened Verdicts

  // ---- reviews and repairs ------------------------------------------------------------------------------------------

  /** The implementer's turns before the pull request was recorded, without the first, and those after it. */
  function Corrections(log: seq<Act>): nat {
    if log == [] then 0
    else Corrections(log[..|log| - 1]) + if Corrects(log, |log| - 1) then 1 else 0
  }

  function Repairs(log: seq<Act>): nat {
    if log == [] then 0
    else Repairs(log[..|log| - 1]) + if IsRepair(log, |log| - 1) then 1 else 0
  }

  predicate IsRepair(log: seq<Act>, i: nat)
    requires i < |log|
  {
    ImplementerTurn(log[i]) && Observe(log[..i]).prOpen
  }

  predicate Corrects(log: seq<Act>, i: nat)
    requires i < |log|
  {
    ImplementerTurn(log[i]) && !Observe(log[..i]).prOpen && Observe(log[..i]).course.last.Corrigible?
  }

  lemma {:induction false} TurnsCounted(log: seq<Act>)
    ensures Observe(log).tally.corrections == Corrections(log) && Observe(log).tally.repairs == Repairs(log)
  {
    hide AdvancePrep, AdvanceWork, AdvanceRead, AdvanceTree, AdvanceCourse, AdvanceClock;
    if log != [] {
      TurnsCounted(log[..|log| - 1]);
    }
  }

  /** The counts stay within the limits, and a repair's provider is only asked for a review that asks for repairs. */
  predicate Bounded(m: Monitor, c: Rules) {
    && m.tally.corrections <= c.limits.corrections && m.tally.repairs <= c.limits.repairs
    && (m.prOpen && m.course.last.Assessed? && m.course.last.role.Implementer? ==> AsksForRepair(m, c))
  }

  lemma BoundedKept(m: Monitor, a: Act, c: Rules)
    requires Bounded(m, c) && InOrder(m, a, c)
    ensures Bounded(Advance(m, a), c)
  {
    hide AdvancePrep, AdvanceWork, AdvanceRead, AdvanceTree, AdvanceClock, Leads, Plays, MayWait, MayValidate, GoodWork;
  }

  lemma {:induction false} RunBounded(log: seq<Act>, c: Rules, n: nat)
    requires Good(log, c) && n <= |log|
    ensures Bounded(Observe(log[..n]), c)
  {
    if n > 0 {
      hide Compares, Prepares, Timely, InOrder, Advance, Bounded, Observe;
      RunBounded(log, c, n - 1);
      GoodAt(log, c, n - 1);
      ObserveNext(log, n);
      BoundedKept(Observe(log[..n - 1]), log[n - 1], c);
    } else {
      assert log[..0] == [];
    }
  }

  /** No run corrects or repairs more often than configured. */
  lemma TurnsLimited(log: seq<Act>, c: Rules)
    requires Good(log, c)
    ensures Corrections(log) <= c.limits.corrections && Repairs(log) <= c.limits.repairs
  {
    assert log[..|log|] == log;
    RunBounded(log, c, |log|);
    TurnsCounted(log);
  }

  predicate IsReview(a: Act) {
    a.Waited? && a.role.Reviewer?
  }

  lemma FindingsNext(m: Monitor, a: Act)
    ensures Advance(m, a).tally.findings == if IsReview(a) then a.result.findings else m.tally.findings
  {
    hide AdvancePrep, AdvanceWork, AdvanceRead, AdvanceTree, AdvanceCourse, AdvanceClock;
  }

  lemma {:induction false} FindingsMeans(log: seq<Act>, n: nat) returns (j: nat)
    requires n <= |log| && Observe(log[..n]).tally.findings.Some?
    ensures j < n && IsReview(log[j]) && log[j].result.findings == Observe(log[..n]).tally.findings
    ensures forall x :: j < x < n ==> !IsReview(log[x])
  {
    assert log[..0] == [] && Observe([]) == FRESH;
    hide Advance, Observe;
    ObserveNext(log, n);
    FindingsNext(Observe(log[..n - 1]), log[n - 1]);
    if IsReview(log[n - 1]) {
      j := n - 1;
    } else {
      j := FindingsMeans(log, n - 1);
    }
  }

  /** Every implementer turn after the recorded pull request repairs what the last review found, below the limit: that
      review counts findings or requests changes. */
  lemma RepairsHaveFindings(log: seq<Act>, c: Rules, i: nat) returns (j: nat)
    requires Good(log, c) && i < |log| && ImplementerTurn(log[i]) && HasOpenings(log[..i])
    ensures j < i && IsReview(log[j]) && forall x :: j < x < i ==> !IsReview(log[x])
    ensures log[j].result.findings.Some? && Repairs(log[..i]) < c.limits.repairs
    ensures log[j].result.findings.value.count != 0 ||
      log[j].result.findings.value.recommendation == "request-changes"
  {
    hide Compares, Prepares, Timely, Observe, HasOpenings;
    PrOpenObserved(log[..i]);
    RunBounded(log, c, i);
    GoodAt(log, c, i);
    TurnsCounted(log[..i]);
    j := FindingsMeans(log, i);
  }

  /** A review goes on as its answers say: a posted review with findings asks for a repair while one is allowed, and
      otherwise ends; a usable implementer repairs, and otherwise the review ends; after a published repair comes the
      next review. */
  lemma ReviewGoesOn(m: Monitor, a: Act, c: Rules)
    requires InOrder(m, a, c) && Steers(m.course.last, a) && !a.Raised? && m.prOpen
    ensures var l := m.course.last;
      && (l.ReviewPosted? ==>
            if AsksForRepair(m, c) then a.Assessed? && a.role.Implementer? else a == Recorded(PrOpen, false))
      && (l.Assessed? && l.role.Implementer? ==>
            if Usable(l.health) then ImplementerTurn(a) else a == Recorded(PrOpen, false))
      && (l.Assessed? && l.role.Reviewer? ==>
            a == if Usable(l.health) then Recorded(Reviewing, true) else Recorded(PrOpen, false))
      && (l == Recorded(Reviewing, true) ==> a.Turn? && a.role.Reviewer?)
      && (IsReview(l) ==> if Complete(l) then a.ReviewPosted? else a == Recorded(PrOpen, false))
      && (l.EvidenceWritten? ==> a == Recorded(Reviewing, true))
  {
  }

  /** In the log: after a posted review with findings, while repairs are left, the implementer is asked for, and if it
      is usable it repairs; only an exception comes in between. */
  lemma FindingsAreRepaired(log: seq<Act>, c: Rules, j: nat, p: nat, n: nat)
    requires Good(log, c) && j < p < n < |log| && LastBefore(log, j, p) && LastBefore(log, p, n)
    requires Steers(log[p], log[n])
    requires IsReview(log[j]) && Complete(log[j]) && HasFindings(log[j].result.findings.value)
    requires HasOpenings(log[..p]) && Repairs(log[..n]) < c.limits.repairs
    requires !log[p].Raised? && !log[n].Raised?
    ensures log[p].ReviewPosted? && log[n].Assessed? && log[n].role.Implementer?
  {
    hide Compares, Prepares, Timely, Observe, HasOpenings, Advance, InOrder, AsksForRepair;
    PrOpenObserved(log[..p]);
    GoodAt(log, c, p);
    ReviewGoesOn(Observe(log[..p]), log[p], c);
    StaysOpen(log, p, n);
    TurnsCounted(log[..n]);
    FindingsStay(log, j, n);
    GoodAt(log, c, n);
    Asks(Observe(log[..n]), log[j].result.findings, c);
    ReviewGoesOn(Observe(log[..n]), log[n], c);
  }

  lemma Asks(m: Monitor, findings: Option<Findings>, c: Rules)
    requires m.tally.findings == findings && findings.Some? && HasFindings(findings.value)
    requires m.tally.repairs < c.limits.repairs
    ensures AsksForRepair(m, c)
  {
  }

  lemma {:induction false} StaysOpen(log: seq<Act>, k: nat, n: nat)
    requires k <= n <= |log| && Observe(log[..k]).prOpen
    ensures Observe(log[..n]).prOpen
  {
    hide AdvancePrep, AdvanceWork, AdvanceTally, AdvanceRead, AdvanceTree, AdvanceCourse, AdvanceClock, Observe;
    if k < n {
      StaysOpen(log, k, n - 1);
      ObserveNext(log, n);
    }
  }

  /** Between a review and the next one its findings stay. */
  lemma {:induction false} FindingsStay(log: seq<Act>, j: nat, n: nat)
    requires j < n <= |log| && IsReview(log[j]) && forall x :: j < x < n ==> !IsReview(log[x])
    ensures Observe(log[..n]).tally.findings == log[j].result.findings
  {
    hide Advance, Observe;
    ObserveNext(log, n);
    FindingsNext(Observe(log[..n - 1]), log[n - 1]);
    if j < n - 1 {
      FindingsStay(log, j, n - 1);
    }
  }

  // ---- the row names the run the worker waits for -------------------------------------------------------------------

  /** While a worker waits for a turn, and as long as the row holds its lease, the row names the conversation `named` at
      the provider that plays the role; it is the conversation the provider accepted last. */
  lemma WaitsNamed(log: seq<Act>, c: Rules, h: Past, i: nat) returns (k: nat)
    requires Good(log, c) && Backed(log, c, h) && i < |log| && log[i].Waited?
    ensures LastBefore(log, k, i) && log[k] == Started(log[i].role, log[i].conversation)
    ensures Plays(log[i].role, log[i].provider, c)
    ensures NamedThroughout(h, c.claimed.id, log[i].provider, log[i].named, log[i].from, log[i].until)
    ensures log[i].named != log[i].conversation ==> log[i].role.Implementer? && Corrections(log[..i]) > 0
  {
    hide Compares, Prepares, Timely, Observe, NamedThroughout, Plays;
    GoodAt(log, c, i);
    assert BackedBy(log[i], c, h);
    TurnsCounted(log[..i]);
    k := LastMeans(log, i);
  }

  /** The answers before the first turn. */
  predicate IsEarly(l: Act, prOpen: bool) {
    l.Nothing? || l.Matched? || l.LookedUp? || l.Adopted? || l.SetUp? ||
    (l.Assessed? && l.role.Implementer? && !prOpen)
  }

  /** The first turn comes once, and its conversation is the one that is resumed. */
  predicate OneRun(m: Monitor) {
    var l := m.course.last;
    && (IsEarly(l, m.prOpen) ==> m.turns == 0) && (l.Turn? || l.Started? ==> m.turns > 0)
    && (m.turns == 0 ==> m.tally.named == "")
    && (l.Turn? && l.role.Implementer? && !m.prOpen && m.tally.named != "" ==> m.tally.corrections > 0)
    && (l.Started? && l.role.Implementer? && !m.prOpen ==> l.conversation == m.tally.run)
  }

  lemma OneRunKept(m: Monitor, a: Act, c: Rules)
    requires OneRun(m) && InOrder(m, a, c)
    ensures OneRun(Advance(m, a))
    ensures m.tally.named != "" && !a.Waited? ==> Advance(m, a).tally.run == m.tally.run
    ensures a.Waited? ==> Advance(m, a).tally.run == m.tally.run
  {
    hide AdvancePrep, AdvanceWork, AdvanceRead, AdvanceTree, AdvanceClock, Leads, Plays, MayValidate, GoodWork, NameOf;
  }

  lemma {:induction false} RunsOnce(log: seq<Act>, c: Rules, n: nat)
    requires Good(log, c) && n <= |log|
    ensures OneRun(Observe(log[..n]))
  {
    if n > 0 {
      hide Compares, Prepares, Timely, InOrder, Advance, OneRun, Observe;
      RunsOnce(log, c, n - 1);
      GoodAt(log, c, n - 1);
      ObserveNext(log, n);
      OneRunKept(Observe(log[..n - 1]), log[n - 1], c);
    } else {
      assert log[..0] == [];
    }
  }

  lemma WaitStep(m: Monitor, a: Act, c: Rules)
    requires OneRun(m) && InOrder(m, a, c) && Advance(m, a).tally.named != m.tally.named
    ensures a.Waited? && a.role.Implementer? && !m.prOpen && m.tally.corrections == 0
    ensures a.conversation == m.tally.run && Advance(m, a).tally.named == NameOf(a.result.conversation, m.tally.run)
  {
    hide AdvancePrep, AdvanceWork, AdvanceRead, AdvanceTree, AdvanceClock, AdvanceCourse, Leads, Plays, NameOf;
  }

  /** The name the row carries for corrections comes from the result of the first turn. */
  lemma {:induction false} FirstWait(log: seq<Act>, c: Rules, n: nat) returns (f: nat)
    requires Good(log, c) && n <= |log| && Observe(log[..n]).tally.named != ""
    ensures f < n && log[f].Waited? && log[f].role.Implementer? && Corrections(log[..f]) == 0
    ensures var t := Observe(log[..n]).tally;
      t.run == log[f].conversation && t.named == NameOf(log[f].result.conversation, t.run)
  {
    assert log[..0] == [] && Observe([]) == FRESH;
    hide Advance, Observe, InOrder, Compares, Prepares, Timely, OneRun, NameOf;
    ObserveNext(log, n);
    GoodAt(log, c, n - 1);
    RunsOnce(log, c, n - 1);
    OneRunKept(Observe(log[..n - 1]), log[n - 1], c);
    if Observe(log[..n]).tally.named == Observe(log[..n - 1]).tally.named {
      f := FirstWait(log, c, n - 1);
    } else {
      f := n - 1;
      TurnsCounted(log[..f]);
      WaitStep(Observe(log[..f]), log[f], c);
    }
  }

  /** During a correction the row names the conversation the worker waits for exactly when the result of the first turn
      named no other one. */
  lemma NamedRightIff(log: seq<Act>, c: Rules, i: nat) returns (f: nat)
    requires Good(log, c) && i < |log| && log[i].Waited? && log[i].role.Implementer? && log[i].named != ""
    requires !Observe(log[..i]).prOpen && Corrections(log[..i]) > 0
    ensures f < i && log[f].Waited? && log[f].role.Implementer? && Corrections(log[..f]) == 0
    ensures log[f].conversation == log[i].conversation
    ensures log[i].named == log[i].conversation <==>
      log[f].result.conversation in {None, Some(""), Some(log[i].conversation)}
  {
    hide Compares, Prepares, Timely, Observe, Plays, Good;
    GoodAt(log, c, i);
    TurnsCounted(log[..i]);
    f := FirstWait(log, c, i);
    RunsOnce(log, c, i);
  }

  // ---- requeues and commits ------------------------------------------------------------------------------------

  lemma {:induction false} RestedMeans(log: seq<Act>, n: nat) returns (b: nat)
    requires n <= |log| && Observe(log[..n]).course.rested.Some?
    ensures b < n && log[b].BackedOff? && Some(log[b].provider) == Observe(log[..n]).course.rested
    ensures forall x :: b < x < n ==> !log[x].Raised? && !log[x].Recorded?
  {
    assert log[..0] == [] && Observe([]) == FRESH;
    hide AdvancePrep, AdvanceWork, AdvanceTally, AdvanceRead, AdvanceTree, AdvanceClock, Observe;
    ObserveNext(log, n);
    if log[n - 1].BackedOff? {
      b := n - 1;
    } else {
      b := RestedMeans(log, n - 1);
    }
  }

  /** A run queues its job again only after it has backed off, in the tables, the implementer or the provider that was
      limited, and while attempts remain unless a provider was limited. */
  lemma RequeuesRest(log: seq<Act>, c: Rules, h: Past, i: nat) returns (b: nat)
    requires Good(log, c) && Backed(log, c, h) && i < |log| && log[i].Recorded? && log[i].to == Queued
    ensures b < i && log[b].BackedOff? && forall x :: b < x < i ==> !log[x].Raised? && !log[x].Recorded?
    ensures RestedAt(h, log[b].provider, log[b].seconds, log[b].now, log[b].at)
    ensures var l := Observe(log[..i]).course.last;
      || (log[b].provider == c.claimed.routing.implementer && c.claimed.attempt + Begun(log[..i]) < c.limits.attempts)
      || (l.Caught? && l.limited == Some(log[b].provider) && l.row.prNumber.None?)
  {
    hide Compares, Prepares, Timely, Observe, RestedAt;
    GoodAt(log, c, i);
    BegunObserved(log[..i]);
    b := RestedMeans(log, i);
    assert BackedBy(log[b], c, h);
  }

  /** What may change the worktree. */
  predicate Disturbs(a: Act) {
    a.CheckedOut? || a.SetUp? || a.Ran? || ImplementerTurn(a)
  }

  lemma IntactStep(m: Monitor, a: Act)
    requires Advance(m, a).tree.intact && !a.Verified?
    ensures m.tree.intact && !Disturbs(a)
  {
    hide AdvancePrep, AdvanceWork, AdvanceTally, AdvanceRead, AdvanceCourse, AdvanceClock;
  }

  lemma {:induction false} IntactMeans(log: seq<Act>, n: nat) returns (v: nat)
    requires n <= |log| && Observe(log[..n]).tree.intact
    ensures v < n && log[v].Verified? && forall x :: v < x < n ==> !Disturbs(log[x])
  {
    assert log[..0] == [] && Observe([]) == FRESH;
    hide Advance, Disturbs, Observe;
    ObserveNext(log, n);
    if log[n - 1].Verified? {
      v := n - 1;
    } else {
      IntactStep(Observe(log[..n - 1]), log[n - 1]);
      v := IntactMeans(log, n - 1);
    }
  }

  /** Nothing is committed, and no command runs, in a worktree that was not verified since the last turn or command. */
  lemma CommitsVerified(log: seq<Act>, c: Rules, i: nat) returns (v: nat)
    requires Good(log, c) && i < |log| && (log[i].Committed? || log[i].Ran?)
    ensures v < i && log[v].Verified? && forall x :: v < x < i ==> !Disturbs(log[x])
  {
    hide Compares, Timely, InOrder, Observe;
    GoodAt(log, c, i);
    v := IntactMeans(log, i);
  }
}

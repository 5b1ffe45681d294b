/** Routing of an issue by its labels, and the stability of re-routing a claimed job. */
module Intake {
  import opened Types
  import opened Text

  /** A decision is either a routing or the reason why the issue is not eligible. */
  datatype Decision = Eligible(routing: Routing) | Ineligible(reason: string)

  /** The fixed label tables, in their declared order. */
  const IMPLEMENTATION_LABELS: seq<(string, string)> :=
    [("agent:claude", "claude"), ("agent:codex", "codex"), ("agent:antigravity", "antigravity")]
  const REVIEW_LABELS: seq<(string, string)> :=
    [("review:claude", "claude"), ("review:codex", "codex"), ("review:antigravity", "antigravity")]

  /** The providers whose label is present, in table order. */
  function Selected(table: seq<(string, string)>, labels: set<string>): (r: seq<string>)
    ensures forall p :: p in r ==> exists i :: 0 <= i < |table| && table[i].1 == p
  {
    if table == [] then []
    else (if table[0].0 in labels then [table[0].1] else []) + Selected(table[1..], labels)
  }

  predicate IsFirst(names: set<string>, name: string) {
    name in names && forall n :: n in names ==> LexAtMost(name, n)
  }

  lemma FirstUnique(names: set<string>, a: string, b: string)
    requires IsFirst(names, a) && IsFirst(names, b)
    ensures a == b
  {
    LexAntisymmetric(a, b);
  }

  lemma FirstExists(names: set<string>)
    requires names != {}
    ensures exists name :: IsFirst(names, name)
  {
    var n :| n in names;
    LexTotal(n, n);
    if names - {n} == {} {
      assert names == {n};
      assert IsFirst(names, n);
    } else {
      FirstExists(names - {n});
      var m :| IsFirst(names - {n}, m);
      LexTotal(m, n);
      if LexAtMost(m, n) {
        assert IsFirst(names, m);
      } else {
        forall k | k in names ensures LexAtMost(n, k) {
          if k != n {
            LexTransitive(n, m, k);
          }
        }
        assert IsFirst(names, n);
      }
    }
  }

  /** The first name of the sorted set. */
  function First(names: set<string>): (name: string)
    requires names != {}
    ensures IsFirst(names, name)
  {
    FirstExists(names);
    assert forall a, b :: IsFirst(names, a) && IsFirst(names, b) ==> a == b by {
      forall a, b | IsFirst(names, a) && IsFirst(names, b) ensures a == b {
        FirstUnique(names, a, b);
      }
    }
    var name :| name in names && IsFirst(names, name);
    name
  }

  /** The reviewer chosen when the issue names none: the first available name other than the implementer, or
      the implementer itself when it is the only one available. */
  function DefaultReviewer(implementer: string, available: set<string>): Option<string> {
    var candidates := available - {implementer};
    if candidates != {} then Some(First(candidates))
    else if implementer in available then Some(implementer)
    else None
  }

  function Route(issue: Snapshot, available: set<string>): Decision {
    if Lower(issue.state) != "open" then Ineligible("issue is closed")
    else if "agent:paused" in issue.labels then Ineligible("issue is paused")
    else if "agent:manual-only" in issue.labels then Ineligible("issue is manual-only")
    else if "agent:ready" !in issue.labels then Ineligible("agent:ready is absent")
    else
      var implementers := Selected(IMPLEMENTATION_LABELS, issue.labels);
      var reviewers := Selected(REVIEW_LABELS, issue.labels);
      var required := "review:required" in issue.labels;
      if |implementers| != 1 then Ineligible("exactly one implementation-provider label is required")
      else if |reviewers| > 1 then Ineligible("at most one review-provider label is allowed")
      else if reviewers != [] && !required then Ineligible("review-provider label requires review:required")
      else
        var reviewer :=
          if reviewers != [] then Some(reviewers[0])
          else if required then DefaultReviewer(implementers[0], available)
          else None;
        if required && reviewer.None? then Ineligible("review requested but no review provider is available")
        else Eligible(Routing(implementers[0], required, reviewer))
  }

  /** What the claim check and the mutation guard pass as available reviewers: the recorded reviewer, or
      nobody when there is none or its name is empty. */
  function RecheckReviewers(reviewer: Option<string>): set<string> {
    if reviewer.Some? && reviewer.value != "" then {reviewer.value} else {}
  }

  /** The same issue routed again for the recorded reviewer only. */
  function Recheck(issue: Snapshot, recorded: Routing): Decision {
    Route(issue, RecheckReviewers(recorded.reviewer))
  }

  lemma DefaultReviewerStable(implementer: string, available: set<string>)
    requires DefaultReviewer(implementer, available).Some?
    ensures var p := DefaultReviewer(implementer, available).value;
            DefaultReviewer(implementer, {p}) == Some(p)
  {
  }

  /** Re-routing an unchanged issue for the recorded reviewer gives the recorded decision exactly when the
      recorded reviewer is not the empty name, which is falsy and dropped by the re-check. */
  lemma RecheckStableIff(issue: Snapshot, available: set<string>)
    requires Route(issue, available).Eligible?
    ensures var recorded := Route(issue, available).routing;
            Recheck(issue, recorded) == Eligible(recorded) <==> recorded.reviewer != Some("")
  {
    var recorded := Route(issue, available).routing;
    var reviewers := Selected(REVIEW_LABELS, issue.labels);
    if reviewers != [] {
      assert reviewers[0] in reviewers;
      assert recorded.reviewer == Some(reviewers[0]) && reviewers[0] != "";
    } else if recorded.reviewRequired {
      DefaultReviewerStable(recorded.implementer, available);
      if recorded.reviewer == Some("") {
        assert RecheckReviewers(recorded.reviewer) == {};
        assert DefaultReviewer(recorded.implementer, {}).None?;
      }
    }
  }

  /** The reviewer fallback: with review required and no reviewer named, the reviewer differs from the
      implementer whenever anybody else is available, and routing never changes the implementer. */
  lemma ReviewerIndependence(issue: Snapshot, available: set<string>)
    requires Route(issue, available).Eligible?
    requires Selected(REVIEW_LABELS, issue.labels) == [] && "review:required" in issue.labels
    ensures var r := Route(issue, available).routing;
            r.reviewer.value in available &&
            (r.reviewer.value == r.implementer <==> available == {r.implementer})
  {
  }

  // ---- routing in the words of the labels ---------------------------------------------------------------------------

  const PROVIDERS: set<string> := {"claude", "codex", "antigravity"}

  function ImplementedBy(provider: string): string {
    "agent:" + provider
  }

  function ReviewedBy(provider: string): string {
    "review:" + provider
  }

  predicate Implements(issue: Snapshot, provider: string) {
    provider in PROVIDERS && ImplementedBy(provider) in issue.labels
  }

  predicate Reviews(issue: Snapshot, provider: string) {
    provider in PROVIDERS && ReviewedBy(provider) in issue.labels
  }

  /** The labels of the tables are the names of the providers behind a prefix. */
  lemma LabelsSelect(issue: Snapshot)
    ensures var s := Selected(IMPLEMENTATION_LABELS, issue.labels);
      (forall p :: p in s <==> Implements(issue, p)) && Distinct(s)
    ensures var s := Selected(REVIEW_LABELS, issue.labels);
      (forall p :: p in s <==> Reviews(issue, p)) && Distinct(s)
  {
    assert ImplementedBy("claude") == "agent:claude" && ImplementedBy("codex") == "agent:codex";
    assert ImplementedBy("antigravity") == "agent:antigravity";
    assert ReviewedBy("claude") == "review:claude" && ReviewedBy("codex") == "review:codex";
    assert ReviewedBy("antigravity") == "review:antigravity";
    SelectedThree(IMPLEMENTATION_LABELS, issue.labels);
    SelectedThree(REVIEW_LABELS, issue.labels);
  }

  lemma SelectedThree(table: seq<(string, string)>, labels: set<string>)
    requires |table| == 3
    ensures Selected(table, labels) ==
      (if table[0].0 in labels then [table[0].1] else []) + (if table[1].0 in labels then [table[1].1] else []) +
      (if table[2].0 in labels then [table[2].1] else [])
  {
    var rest := table[1..];
    var last := rest[1..];
    assert rest[0] == table[1] && last[0] == table[2] && last[1..] == [];
    assert Selected(last, labels) == if table[2].0 in labels then [table[2].1] else [];
    assert Selected(rest, labels) == (if table[1].0 in labels then [table[1].1] else []) + Selected(last, labels);
  }

  predicate Distinct(s: seq<string>) {
    forall i, j :: 0 <= i < j < |s| ==> s[i] != s[j]
  }

  lemma OneSelected(s: seq<string>)
    requires Distinct(s)
    ensures |s| <= 1 <==> forall p, q :: p in s && q in s ==> p == q
  {
    if |s| > 1 {
      assert s[0] in s && s[1] in s;
    }
  }

  /** An issue is eligible exactly when it is open, ready and under no stop label, one implementation provider is named,
      at most one review provider, and that only with the request for a review, which somebody can give. */
  lemma EligibleIff(issue: Snapshot, available: set<string>)
    ensures Route(issue, available).Eligible? <==>
      && Lower(issue.state) == "open" && "agent:ready" in issue.labels
      && "agent:paused" !in issue.labels && "agent:manual-only" !in issue.labels
      && (exists p :: Implements(issue, p)) && (forall p, q :: Implements(issue, p) && Implements(issue, q) ==> p == q)
      && (forall p, q :: Reviews(issue, p) && Reviews(issue, q) ==> p == q)
      && ((exists p :: Reviews(issue, p)) ==> "review:required" in issue.labels)
      && ("review:required" in issue.labels && (forall p :: !Reviews(issue, p)) ==> available != {})
  {
    LabelsSelect(issue);
    var implementers := Selected(IMPLEMENTATION_LABELS, issue.labels);
    var reviewers := Selected(REVIEW_LABELS, issue.labels);
    OneSelected(implementers);
    OneSelected(reviewers);
    hide Implements, Reviews, Selected, Distinct, Lower;
    if implementers != [] { assert implementers[0] in implementers; }
    if reviewers != [] { assert reviewers[0] in reviewers; }
  }

  /** The routing is what the labels say: who implements, whether a review is required, and who reviews, if somebody is
      named. */
  lemma RoutingNames(issue: Snapshot, available: set<string>, p: string)
    requires Route(issue, available).Eligible?
    ensures var r := Route(issue, available).routing;
      && (Implements(issue, p) <==> r.implementer == p)
      && (r.reviewRequired <==> "review:required" in issue.labels) && (r.reviewer.Some? <==> r.reviewRequired)
      && (Reviews(issue, p) ==> r.reviewer == Some(p))
  {
    LabelsSelect(issue);
    var implementers := Selected(IMPLEMENTATION_LABELS, issue.labels);
    var reviewers := Selected(REVIEW_LABELS, issue.labels);
    assert implementers[0] in implementers;
    hide Implements, Reviews, Selected;
    if reviewers != [] { assert reviewers[0] in reviewers; }
  }
}

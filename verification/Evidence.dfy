/** The two rewrites of published evidence: the validation section of a pull request body and the CI note in a
    validation summary. Both are last-writer-wins. */
module Evidence {
  import opened Types
  import opened Text

  const SECTION := "## Validation\n"
  const NEXT_SECTION := "\n## Unresolved risks"
  const CI_NOTE := "; CI:"

  /** Where the validation section begins and where the next section begins. */
  function Bounds(body: string): (r: Option<(nat, nat)>)
    ensures r.Some? ==>
      r.value.0 < r.value.1 && MatchesAt(body, SECTION, r.value.0) && MatchesAt(body, NEXT_SECTION, r.value.1)
    ensures r.Some? ==> forall i :: 0 <= i < r.value.0 ==> !MatchesAt(body, SECTION, i)
    ensures r.Some? ==> forall i :: r.value.0 < i < r.value.1 ==> !MatchesAt(body, NEXT_SECTION, i)
  {
    var start := Find(body, SECTION, 0);
    if start.None? then None
    else
      var end := Find(body, NEXT_SECTION, start.value + 1);
      if end.None? then None else Some((start.value, end.value))
  }

  /** The body with its validation section replaced; `None` is the missing-section error. */
  function Update(body: string, validation: string): Option<string> {
    var b := Bounds(body);
    if b.None? then None
    else Some(body[..b.value.0] + SECTION + "\n" + validation + "\n" + body[b.value.1..])
  }

  // ---- first occurrences in a concatenation -------------------------------------------------------------------

  lemma FindIs(text: string, needle: string, from: nat, i: nat)
    requires from <= i && MatchesAt(text, needle, i)
    requires forall k :: from <= k < i ==> !MatchesAt(text, needle, k)
    ensures Find(text, needle, from) == Some(i)
  {
  }

  /** A match only looks at its own characters. */
  lemma MatchLocal(a: string, b: string, needle: string, i: int, j: int)
    requires 0 <= i && 0 <= j && i + |needle| <= |a| && j + |needle| <= |b|
    requires a[i..i + |needle|] == b[j..j + |needle|]
    ensures MatchesAt(a, needle, i) <==> MatchesAt(b, needle, j)
  {
  }

  lemma MatchChar(text: string, needle: string, i: int, k: int)
    requires MatchesAt(text, needle, i) && 0 <= k < |needle|
    ensures text[i + k] == needle[k]
  {
  }

  /** The next-section marker has one newline, its first character, so a match never crosses a newline. */
  lemma NoCrossing(text: string, i: int, k: int)
    requires 0 <= i < k < |text| && text[k] == '\n' && k < i + |NEXT_SECTION|
    ensures !MatchesAt(text, NEXT_SECTION, i)
  {
  }

  lemma SectionStays(pre: string, rest: string, tail: string)
    requires Find(pre + SECTION + rest, SECTION, 0) == Some(|pre|)
    ensures Find(pre + SECTION + tail, SECTION, 0) == Some(|pre|)
  {
    var a, b := pre + SECTION + rest, pre + SECTION + tail;
    forall k | 0 <= k < |pre| ensures !MatchesAt(b, SECTION, k) {
      assert a[k..k + |SECTION|] == b[k..k + |SECTION|] by {
        assert a[..|pre| + |SECTION|] == b[..|pre| + |SECTION|];
        assert a[k..k + |SECTION|] == a[..|pre| + |SECTION|][k..k + |SECTION|];
      }
      MatchLocal(a, b, SECTION, k, k);
    }
    assert b[|pre|..|pre| + |SECTION|] == SECTION;
    FindIs(b, SECTION, 0, |pre|);
  }

  /** The layout of an updated body: the section header, the new evidence, and everything from the next
      section on. */
  function Layout(pre: string, validation: string, rest: string): string {
    pre + SECTION + "\n" + validation + "\n" + rest
  }

  lemma NoEarlyEnd(pre: string, v: string, rest: string, k: nat)
    requires MatchesAt(rest, NEXT_SECTION, 0) && !Contains("\n" + v, NEXT_SECTION)
    requires |pre| < k < |pre| + |SECTION| + 1 + |v| + 1
    ensures !MatchesAt(Layout(pre, v, rest), NEXT_SECTION, k)
  {
    var u, s, e := Layout(pre, v, rest), |pre| + |SECTION|, |pre| + |SECTION| + 1 + |v| + 1;
    assert u[s - 1] == SECTION[|SECTION| - 1] && u[s] == '\n' && u[e - 1] == '\n' && u[e] == rest[0];
    MatchChar(rest, NEXT_SECTION, 0, 0);
    if k < s - 1 { NoCrossing(u, k, s - 1); }
    else if k == s - 1 { NoCrossing(u, k, s); }
    else if k == e - 1 { NoCrossing(u, k, e); }
    else if e - 1 < k + |NEXT_SECTION| { NoCrossing(u, k, e - 1); }
    else {
      assert u[s..e - 1] == "\n" + v;
      assert u[k..k + |NEXT_SECTION|] == u[s..e - 1][k - s..k - s + |NEXT_SECTION|];
      MatchLocal(u, "\n" + v, NEXT_SECTION, k, k - s);
    }
  }

  lemma SplitAtMatch(body: string, needle: string, i: int)
    requires MatchesAt(body, needle, i)
    ensures body == body[..i] + needle + body[i + |needle|..]
  {
  }

  lemma Reassociate(a: string, b: string, c: string, d: string, e: string, f: string)
    ensures a + b + c + d + e + f == a + b + (c + d + e + f)
  {
  }

  lemma StartStays(body: string, v: string)
    requires Bounds(body).Some?
    ensures var b := Bounds(body).value; Find(Layout(body[..b.0], v, body[b.1..]), SECTION, 0) == Some(b.0)
  {
    var b := Bounds(body).value;
    SplitAtMatch(body, SECTION, b.0);
    Reassociate(body[..b.0], SECTION, "\n", v, "\n", body[b.1..]);
    SectionStays(body[..b.0], body[b.0 + |SECTION|..], "\n" + v + "\n" + body[b.1..]);
  }

  /** The text after the section starts with the next-section marker, so the search succeeds there at the
      latest. */
  lemma EndAtMost(pre: string, v: string, rest: string)
    requires MatchesAt(rest, NEXT_SECTION, 0)
    ensures MatchesAt(Layout(pre, v, rest), NEXT_SECTION, |pre| + |SECTION| + 1 + |v| + 1)
  {
  }

  lemma EndTooEarly(pre: string, v: string, rest: string) returns (k: nat)
    requires Contains("\n" + v, NEXT_SECTION)
    ensures |pre| < k < |pre| + |SECTION| + 1 + |v| + 1 && MatchesAt(Layout(pre, v, rest), NEXT_SECTION, k)
  {
    var q := Find("\n" + v, NEXT_SECTION, 0).value;
    var u, s := Layout(pre, v, rest), |pre| + |SECTION|;
    k := s + q;
    assert u[s..s + 1 + |v|] == "\n" + v;
    assert u[k..k + |NEXT_SECTION|] == u[s..s + 1 + |v|][q..q + |NEXT_SECTION|];
  }

  lemma FindAtMost(text: string, needle: string, from: nat, i: nat)
    requires from <= i && MatchesAt(text, needle, i)
    ensures Find(text, needle, from).Some? && Find(text, needle, from).value <= i
  {
  }

  /** Where the text after the section begins in the updated body. */
  function EndPosition(pre: string, v: string): nat {
    |pre| + |SECTION| + 1 + |v| + 1
  }

  lemma EndExact(pre: string, v: string, rest: string)
    requires MatchesAt(rest, NEXT_SECTION, 0) && !Contains("\n" + v, NEXT_SECTION)
    ensures Find(Layout(pre, v, rest), NEXT_SECTION, |pre| + 1) == Some(EndPosition(pre, v))
  {
    hide Find, MatchesAt, Layout;
    EndAtMost(pre, v, rest);
    forall k | |pre| + 1 <= k < EndPosition(pre, v) ensures !MatchesAt(Layout(pre, v, rest), NEXT_SECTION, k) {
      NoEarlyEnd(pre, v, rest, k);
    }
    FindIs(Layout(pre, v, rest), NEXT_SECTION, |pre| + 1, EndPosition(pre, v));
  }

  lemma EndEarly(pre: string, v: string, rest: string)
    requires Contains("\n" + v, NEXT_SECTION)
    ensures var r := Find(Layout(pre, v, rest), NEXT_SECTION, |pre| + 1); r.Some? && r.value < EndPosition(pre, v)
  {
    hide Find, MatchesAt, Layout;
    var k := EndTooEarly(pre, v, rest);
    FindAtMost(Layout(pre, v, rest), NEXT_SECTION, |pre| + 1, k);
  }

  lemma EndOf(pre: string, v: string, rest: string)
    requires MatchesAt(rest, NEXT_SECTION, 0)
    ensures var r := Find(Layout(pre, v, rest), NEXT_SECTION, |pre| + 1);
      r.Some? && r.value <= EndPosition(pre, v) &&
        (r.value == EndPosition(pre, v) <==> !Contains("\n" + v, NEXT_SECTION))
  {
    hide Find, MatchesAt, Layout, Contains;
    if Contains("\n" + v, NEXT_SECTION) {
      EndEarly(pre, v, rest);
    } else {
      EndExact(pre, v, rest);
    }
  }

  /** A later update finds the section where the earlier one put it, and its end where the text after it begins,
      unless the earlier evidence itself contains the next-section marker; then it ends too early. */
  lemma UpdatedBounds(body: string, v: string)
    requires Bounds(body).Some?
    ensures var b := Bounds(body).value; var u := Update(body, v).value; var end := b.0 + |SECTION| + 1 + |v| + 1;
      Bounds(u).Some? && Bounds(u).value.0 == b.0 && Bounds(u).value.1 <= end &&
      (Bounds(u).value.1 == end <==> !Contains("\n" + v, NEXT_SECTION))
  {
    var b := Bounds(body).value;
    StartStays(body, v);
    assert body[b.1..][..|NEXT_SECTION|] == body[b.1..b.1 + |NEXT_SECTION|];
    EndOf(body[..b.0], v, body[b.1..]);
    assert Update(body, v).value == Layout(body[..b.0], v, body[b.1..]);
  }

  /** The text before the section and from the next section on is kept, and both markers survive, so a later
      update never fails. */
  lemma UpdateKeepsRest(body: string, v: string)
    requires Update(body, v).Some?
    ensures var b := Bounds(body).value; var u := Update(body, v).value;
      u[..b.0] == body[..b.0] && |body| - b.1 <= |u| && u[|u| - (|body| - b.1)..] == body[b.1..] && Bounds(u).Some?
  {
    UpdatedBounds(body, v);
  }

  /** The last writer wins exactly when the overwritten evidence does not contain the next-section marker. */
  lemma LastUpdateWinsIff(body: string, v1: string, v2: string)
    requires Update(body, v1).Some?
    ensures Update(Update(body, v1).value, v2) == Update(body, v2) <==> !Contains("\n" + v1, NEXT_SECTION)
  {
    var b := Bounds(body).value;
    var pre, rest := body[..b.0], body[b.1..];
    var u := Layout(pre, v1, rest);
    UpdatedBounds(body, v1);
    var end := b.0 + |SECTION| + 1 + |v1| + 1;
    assert u[..b.0] == pre && u[end..] == rest;
    if Bounds(u).value.1 < end {
      assert |Update(u, v2).value| > |Update(body, v2).value|;
    }
  }

  /** The section is missing exactly when the body has no section header with a next-section marker behind it. */
  lemma UpdatesIff(body: string, v: string)
    ensures Update(body, v).Some? <==>
      exists i, j :: 0 <= i < j && MatchesAt(body, SECTION, i) && MatchesAt(body, NEXT_SECTION, j)
  {
    if Bounds(body).Some? {
      var b := Bounds(body).value;
      assert MatchesAt(body, SECTION, b.0) && MatchesAt(body, NEXT_SECTION, b.1);
    }
  }

  /** What is written is read back: between the section's header and the next section stands exactly the evidence. */
  lemma SectionHoldsEvidence(body: string, v: string)
    requires Update(body, v).Some? && !Contains("\n" + v, NEXT_SECTION)
    ensures var u := Update(body, v).value;
      Bounds(u).Some? && u[Bounds(u).value.0..Bounds(u).value.1] == SECTION + "\n" + v + "\n"
  {
    var b := Bounds(body).value;
    UpdatedBounds(body, v);
    Middle(body[..b.0], SECTION + "\n" + v + "\n", body[b.1..]);
    Reassociate(body[..b.0], SECTION, "\n", v, "\n", body[b.1..]);
    Whole(body[..b.0], v, body[b.1..]);
    hide Contains, Find, MatchesAt;
  }

  lemma Middle(pre: string, mid: string, rest: string)
    ensures (pre + mid + rest)[|pre|..|pre| + |mid|] == mid
  {
  }

  lemma Whole(pre: string, v: string, rest: string)
    ensures Layout(pre, v, rest) == pre + (SECTION + "\n" + v + "\n") + rest
  {
  }

  // ---- the CI note --------------------------------------------------------------------------------------------

  /** The summary up to its first CI note. */
  function Local(summary: string): string {
    var i := Find(summary, CI_NOTE, 0);
    if i.Some? then summary[..i.value] else summary
  }

  function WithCi(summary: string, ci: string): string {
    Local(summary) + CI_NOTE + " " + ci
  }

  /** The note starts with a character it does not repeat, so appending it makes no earlier match. */
  lemma NoteIsFirst(local: string, ci: string)
    requires Find(local, CI_NOTE, 0).None?
    ensures Find(local + CI_NOTE + " " + ci, CI_NOTE, 0) == Some(|local|)
  {
    var t := local + CI_NOTE + " " + ci;
    forall k | 0 <= k < |local| ensures !MatchesAt(t, CI_NOTE, k) {
      if k + |CI_NOTE| <= |local| {
        assert t[k..k + |CI_NOTE|] == local[k..k + |CI_NOTE|];
        MatchLocal(t, local, CI_NOTE, k, k);
      } else if MatchesAt(t, CI_NOTE, k) {
        MatchChar(t, CI_NOTE, k, |local| - k);
      }
    }
    assert t[|local|..|local| + |CI_NOTE|] == CI_NOTE;
    FindIs(t, CI_NOTE, 0, |local|);
  }

  lemma LocalOfNoted(local: string, ci: string)
    requires Find(local, CI_NOTE, 0).None?
    ensures Local(local + CI_NOTE + " " + ci) == local
  {
    NoteIsFirst(local, ci);
  }

  lemma LocalHasNoNote(summary: string)
    ensures Find(Local(summary), CI_NOTE, 0).None?
  {
    var local := Local(summary);
    forall k | 0 <= k && k + |CI_NOTE| <= |local| ensures !MatchesAt(local, CI_NOTE, k) {
      assert local[k..k + |CI_NOTE|] == summary[k..k + |CI_NOTE|];
      MatchLocal(local, summary, CI_NOTE, k, k);
    }
  }

  /** Noting a CI result replaces any earlier note, keeps the local part, and noting the same result again
      changes nothing, so a reconciliation that sees the same CI state writes once. */
  lemma LastCiWins(summary: string, first: string, second: string)
    ensures WithCi(WithCi(summary, first), second) == WithCi(summary, second)
    ensures Local(WithCi(summary, first)) == Local(summary)
  {
    LocalHasNoNote(summary);
    LocalOfNoted(Local(summary), first);
  }

  predicate IsSpace(c: char) {
    c in {' ', '\t', '\n', '\r'}
  }

  function Strip(text: string): string {
    if text != [] && IsSpace(text[0]) then Strip(text[1..])
    else if text != [] && IsSpace(text[|text| - 1]) then Strip(text[..|text| - 1])
    else text
  }

  /** The CI state a summary reports: what stands behind its first note. */
  function Noted(summary: string): Option<string> {
    var i := Find(summary, CI_NOTE, 0);
    if i.Some? then Some(Strip(summary[i.value + |CI_NOTE|..])) else None
  }

  /** The noted state is read back. */
  lemma NotedIsRead(summary: string, ci: string)
    ensures Noted(WithCi(summary, ci)) == Some(Strip(ci))
  {
    var local, noted := Local(summary), WithCi(summary, ci);
    LocalHasNoNote(summary);
    NoteIsFirst(local, ci);
    assert noted[|local| + |CI_NOTE|..] == " " + ci;
    assert (" " + ci)[1..] == ci;
  }
}

/** Searching in strings, as the adapters do it: first occurrence, containment, ASCII case folding. */
module Text {
  import opened Types

  /** True when `needle` stands in `text` at position `i`. */
  predicate MatchesAt(text: string, needle: string, i: int) {
    0 <= i && i + |needle| <= |text| && text[i..i + |needle|] == needle
  }

  /** The least position at or after `from` where `needle` occurs. */
  function Find(text: string, needle: string, from: nat): (r: Option<nat>)
    ensures r.None? ==> forall i :: from <= i ==> !MatchesAt(text, needle, i)
    ensures r.Some? ==> from <= r.value && MatchesAt(text, needle, r.value)
    ensures r.Some? ==> forall i :: from <= i < r.value ==> !MatchesAt(text, needle, i)
    decreases |text| - from
  {
    if from + |needle| > |text| then None
    else if MatchesAt(text, needle, from) then Some(from)
    else Find(text, needle, from + 1)
  }

  predicate Contains(text: string, needle: string) {
    Find(text, needle, 0).Some?
  }

  function LowerChar(c: char): char {
    if 'A' <= c <= 'Z' then c - 'A' + 'a' else c
  }

  function Lower(s: string): (r: string)
    ensures |r| == |s|
    ensures forall i :: 0 <= i < |s| ==> r[i] == LowerChar(s[i])
  {
    seq(|s|, i requires 0 <= i < |s| => LowerChar(s[i]))
  }

  /** Lexicographic order on strings, the order in which names are sorted. */
  predicate LexAtMost(a: string, b: string) {
    a == [] || (b != [] && (a[0] < b[0] || (a[0] == b[0] && LexAtMost(a[1..], b[1..]))))
  }

  lemma LexTotal(a: string, b: string)
    ensures LexAtMost(a, b) || LexAtMost(b, a)
  {
  }

  lemma LexAntisymmetric(a: string, b: string)
    requires LexAtMost(a, b) && LexAtMost(b, a)
    ensures a == b
  {
  }

  lemma LexTransitive(a: string, b: string, c: string)
    requires LexAtMost(a, b) && LexAtMost(b, c)
    ensures LexAtMost(a, c)
  {
  }
}

/** The fragment of regular expressions the validators use: character classes
    (`[0-9A-Z]`), fixed-width anchored patterns (`^[0-9]{2}[A-Z]{5}...$`),
    anchored repetitions (`^[a-z0-9-]+$`) and unanchored single-class searches
    (`/[a-z]/`). */
module Patterns {
  import opened Text

  /** One range of a character class, `lo-hi` (a single character when `lo == hi`). */
  datatype Range = Range(lo: char, hi: char)

  /** A character class `[...]`: the union of its ranges. */
  type CharClass = seq<Range>

  predicate InClass(c: char, cls: CharClass) {
    exists k :: 0 <= k < |cls| && cls[k].lo <= c <= cls[k].hi
  }

  const Digit: CharClass := [Range('0', '9')]
  const Upper: CharClass := [Range('A', 'Z')]
  const Lower: CharClass := [Range('a', 'z')]
  const DigitOrUpper: CharClass := [Range('0', '9'), Range('A', 'Z')]
  const NonZeroDigitOrUpper: CharClass := [Range('1', '9'), Range('A', 'Z')]

  /** What the named classes contain, in terms of the character predicates. */
  lemma {:induction false} ClassMeanings(c: char)
    ensures InClass(c, Digit) <==> IsDigit(c)
    ensures InClass(c, Upper) <==> IsUpper(c)
    ensures InClass(c, Lower) <==> IsLower(c)
    ensures InClass(c, DigitOrUpper) <==> IsDigit(c) || IsUpper(c)
    ensures InClass(c, NonZeroDigitOrUpper) <==> ('1' <= c <= '9') || IsUpper(c)
    ensures InClass(c, Literal(c))
  {
    if IsDigit(c) {
      assert Digit[0].lo <= c <= Digit[0].hi;
      assert DigitOrUpper[0].lo <= c <= DigitOrUpper[0].hi;
    }
    if IsUpper(c) {
      assert Upper[0].lo <= c <= Upper[0].hi;
      assert DigitOrUpper[1].lo <= c <= DigitOrUpper[1].hi;
      assert NonZeroDigitOrUpper[1].lo <= c <= NonZeroDigitOrUpper[1].hi;
    }
    if IsLower(c) {
      assert Lower[0].lo <= c <= Lower[0].hi;
    }
    if '1' <= c <= '9' {
      assert NonZeroDigitOrUpper[0].lo <= c <= NonZeroDigitOrUpper[0].hi;
    }
    assert Literal(c)[0].lo <= c <= Literal(c)[0].hi;
  }

  /** A literal character in a pattern. */
  function Literal(c: char): CharClass {
    [Range(c, c)]
  }

  /** `cls{n}`. */
  function Repeat(cls: CharClass, n: nat): (p: seq<CharClass>)
    ensures |p| == n
    ensures forall i :: 0 <= i < n ==> p[i] == cls
  {
    seq(n, _ => cls)
  }

  /** A pattern literal string. */
  function Literals(s: string): (p: seq<CharClass>)
    ensures |p| == |s|
    ensures forall i :: 0 <= i < |s| ==> p[i] == Literal(s[i])
  {
    seq(|s|, i requires 0 <= i < |s| => Literal(s[i]))
  }

  /** `^c1c2...cn$`: `s` has exactly one character per class, each in its class. */
  predicate MatchesFixed(s: string, pattern: seq<CharClass>) {
    |s| == |pattern| && forall i :: 0 <= i < |s| ==> InClass(s[i], pattern[i])
  }

  /** Every character of `s` is in `cls` (`^[cls]+$` once `s` is known not to be empty). */
  predicate AllIn(s: string, cls: CharClass) {
    forall i :: 0 <= i < |s| ==> InClass(s[i], cls)
  }

  /** `/[cls]/.test(s)`: some character of `s` is in `cls`. */
  predicate ContainsSome(s: string, cls: CharClass) {
    exists i :: 0 <= i < |s| && InClass(s[i], cls)
  }

  /** Class membership decided by scanning the ranges one by one. */
  method ClassScan(c: char, cls: CharClass) returns (found: bool)
    ensures found <==> InClass(c, cls)
  {
    found := false;
    var k := 0;
    while k < |cls| && !found
      invariant 0 <= k <= |cls|
      invariant found <==> exists j :: 0 <= j < k && cls[j].lo <= c <= cls[j].hi
    {
      found := cls[k].lo <= c <= cls[k].hi;
      k := k + 1;
    }
  }

  /** A fixed-width pattern matched by a left-to-right scan that stops at the first mismatch. */
  method MatchFixedScan(s: string, pattern: seq<CharClass>) returns (ok: bool)
    ensures ok <==> MatchesFixed(s, pattern)
  {
    if |s| != |pattern| {
      return false;
    }
    var i := 0;
    ok := true;
    while i < |s| && ok
      invariant 0 <= i <= |s|
      invariant ok <==> forall j :: 0 <= j < i ==> InClass(s[j], pattern[j])
    {
      ok := ClassScan(s[i], pattern[i]);
      i := i + 1;
    }
  }

  /** Whether some character of `s` is in `cls`, by a scan that stops at the first hit. */
  method ContainsScan(s: string, cls: CharClass) returns (found: bool)
    ensures found <==> ContainsSome(s, cls)
  {
    found := false;
    var i := 0;
    while i < |s| && !found
      invariant 0 <= i <= |s|
      invariant found <==> exists j :: 0 <= j < i && InClass(s[j], cls)
    {
      found := ClassScan(s[i], cls);
      i := i + 1;
    }
  }
}

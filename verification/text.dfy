/** The JavaScript string operations the core relies on, restricted to ASCII:
    character classes, case mapping, `trim`, `slice`, `padStart`, integer
    `toString` and word joining. */
module Text {
  import opened Results

  /** JavaScript truthiness of an optional string: present and not empty. */
  predicate Present(s: Option<string>) {
    s.Some? && |s.value| > 0
  }

  // ---------------------------------------------------------------------------
  // Character classes
  // ---------------------------------------------------------------------------

  /** The ASCII members of the regular-expression class `\s` (and of what `trim` strips). */
  predicate IsSpace(c: char) {
    c == ' ' || c == '\t' || c == '\n' || c == '\r' || c == '\U{000B}' || c == '\U{000C}'
  }

  predicate IsDigit(c: char) {
    '0' <= c <= '9'
  }

  predicate IsUpper(c: char) {
    'A' <= c <= 'Z'
  }

  predicate IsLower(c: char) {
    'a' <= c <= 'z'
  }

  // ---------------------------------------------------------------------------
  // String length as JavaScript counts it
  // ---------------------------------------------------------------------------

  /** The UTF-16 code units of one character: two for a character outside the Basic
      Multilingual Plane (a surrogate pair), one otherwise. */
  function CodeUnits(c: char): nat {
    if c as int >= 0x10000 then 2 else 1
  }

  /** `s.length`: the number of UTF-16 code units, at least one and at most two per character,
      and exactly one per character for text inside the Basic Multilingual Plane. */
  function JsLength(s: string): (n: nat)
    ensures |s| <= n <= 2 * |s|
    ensures (forall i :: 0 <= i < |s| ==> s[i] as int < 0x10000) ==> n == |s|
    ensures (forall i :: 0 <= i < |s| ==> s[i] as int >= 0x10000) ==> n == 2 * |s|
  {
    if |s| == 0 then 0 else JsLength(s[..|s| - 1]) + CodeUnits(s[|s| - 1])
  }

  /** JavaScript lengths add up over concatenation. */
  lemma {:induction false} JsLengthConcat(a: string, b: string)
    ensures JsLength(a + b) == JsLength(a) + JsLength(b)
    decreases |b|
  {
    if |b| == 0 {
      assert a + b == a;
    } else {
      var b' := b[..|b| - 1];
      assert (a + b)[..|a + b| - 1] == a + b';
      assert (a + b)[|a + b| - 1] == b[|b| - 1];
      JsLengthConcat(a, b');
    }
  }

  /** A character outside the Basic Multilingual Plane counts twice: the emoji U+1F600 has
      JavaScript length 2. */
  lemma {:induction false} SurrogatePairLength()
    ensures |"\U{1F600}"| == 1 && JsLength("\U{1F600}") == 2
  {
    assert "\U{1F600}"[..0] == "";
  }

  // ---------------------------------------------------------------------------
  // Case mapping (ASCII letters only)
  // ---------------------------------------------------------------------------

  function LowerChar(c: char): char {
    if IsUpper(c) then (c as int + 32) as char else c
  }

  function UpperChar(c: char): char {
    if IsLower(c) then (c as int - 32) as char else c
  }

  /** `toLowerCase()`. */
  function ToLower(s: string): (r: string)
    ensures |r| == |s|
    ensures forall i :: 0 <= i < |s| ==> r[i] == LowerChar(s[i])
  {
    seq(|s|, i requires 0 <= i < |s| => LowerChar(s[i]))
  }

  /** `toUpperCase()`. */
  function ToUpper(s: string): (r: string)
    ensures |r| == |s|
    ensures forall i :: 0 <= i < |s| ==> r[i] == UpperChar(s[i])
  {
    seq(|s|, i requires 0 <= i < |s| => UpperChar(s[i]))
  }

  /** Lower-casing leaves a string without upper-case letters unchanged,
      and its result never holds an upper-case letter. */
  lemma {:induction false} ToLowerFixesLowerCase(s: string)
    ensures (forall i :: 0 <= i < |s| ==> !IsUpper(s[i])) <==> ToLower(s) == s
    ensures forall i :: 0 <= i < |s| ==> !IsUpper(ToLower(s)[i])
  {
    if ToLower(s) == s {
      forall i | 0 <= i < |s| ensures !IsUpper(s[i]) {
        assert ToLower(s)[i] == s[i];
      }
    }
  }

  /** Upper-casing leaves a string without lower-case letters unchanged,
      and its result never holds a lower-case letter. */
  lemma {:induction false} ToUpperFixesUpperCase(s: string)
    ensures (forall i :: 0 <= i < |s| ==> !IsLower(s[i])) <==> ToUpper(s) == s
    ensures forall i :: 0 <= i < |s| ==> !IsLower(ToUpper(s)[i])
  {
    if ToUpper(s) == s {
      forall i | 0 <= i < |s| ensures !IsLower(s[i]) {
        assert ToUpper(s)[i] == s[i];
      }
    }
  }

  // ---------------------------------------------------------------------------
  // trim()
  // ---------------------------------------------------------------------------

  /** The number of white-space characters that open `s`. */
  function LeadingSpaces(s: string): (k: nat)
    ensures k <= |s|
    ensures forall i :: 0 <= i < k ==> IsSpace(s[i])
    ensures k == |s| || !IsSpace(s[k])
  {
    if |s| > 0 && IsSpace(s[0]) then 1 + LeadingSpaces(s[1..]) else 0
  }

  /** The number of white-space characters that close `s`. */
  function TrailingSpaces(s: string): (k: nat)
    ensures k <= |s|
    ensures forall i :: |s| - k <= i < |s| ==> IsSpace(s[i])
    ensures k == |s| || !IsSpace(s[|s| - 1 - k])
  {
    if |s| > 0 && IsSpace(s[|s| - 1]) then 1 + TrailingSpaces(s[..|s| - 1]) else 0
  }

  /** `trim()`: `s` without its leading and trailing white space. The result sits in `s` right
      after the opening white space, every character of `s` around it is white space, and it
      neither starts nor ends with white space. */
  function Trim(s: string): (r: string)
    ensures LeadingSpaces(s) + |r| <= |s| && s[LeadingSpaces(s)..LeadingSpaces(s) + |r|] == r
    ensures forall i :: 0 <= i < |s| && !(LeadingSpaces(s) <= i < LeadingSpaces(s) + |r|) ==> IsSpace(s[i])
    ensures |r| == 0 || (!IsSpace(r[0]) && !IsSpace(r[|r| - 1]))
    ensures forall i :: 0 <= i < |r| ==> r[i] in s
  {
    var k := LeadingSpaces(s);
    var t := s[k..];
    var r := t[..|t| - TrailingSpaces(t)];
    assert forall i :: k + |r| <= i < |s| ==> s[i] == t[i - k];
    r
  }

  /** Whatever splits `s` into white space, a part that neither starts nor ends with white
      space, and white space again, `trim` returns that part. */
  lemma {:induction false} TrimUnique(a: string, m: string, b: string)
    requires forall i :: 0 <= i < |a| ==> IsSpace(a[i])
    requires forall i :: 0 <= i < |b| ==> IsSpace(b[i])
    requires |m| == 0 || (!IsSpace(m[0]) && !IsSpace(m[|m| - 1]))
    ensures Trim(a + m + b) == m
  {
    var s := a + m + b;
    var r := Trim(s);
    var k := LeadingSpaces(s);
    if |m| == 0 {
      assert forall i :: 0 <= i < |s| ==> IsSpace(s[i]);
      assert |r| == 0;
    } else {
      assert s[|a|] == m[0];
      assert k == |a|;
      assert s[|a| + |m| - 1] == m[|m| - 1];
      assert |r| == |m|;
      assert s[k..k + |r|] == m;
    }
  }

  /** A string that neither starts nor ends with white space: `trim` keeps it as it is. */
  predicate Trimmed(s: string) {
    |s| > 0 && !IsSpace(s[0]) && !IsSpace(s[|s| - 1])
  }

  lemma {:induction false} TrimKeepsTrimmed(s: string)
    requires Trimmed(s)
    ensures Trim(s) == s
  {
    assert LeadingSpaces(s) == 0;
    assert s[0..] == s;
    assert TrailingSpaces(s) == 0;
  }

  /** `trim` leaves a string without white space as it is. */
  lemma {:induction false} TrimWithoutSpaces(s: string)
    requires forall i :: 0 <= i < |s| ==> !IsSpace(s[i])
    ensures Trim(s) == s
  {
    assert LeadingSpaces(s) == 0;
    assert s[0..] == s;
    assert TrailingSpaces(s) == 0;
  }

  /** `trim` removes one trailing blank after a string that is otherwise trimmed. */
  lemma {:induction false} TrimDropsTrailingBlank(s: string)
    requires Trimmed(s)
    ensures Trim(s + " ") == s
  {
    var u := s + " ";
    assert LeadingSpaces(u) == 0;
    assert u[0..] == u;
    assert u[..|u| - 1] == s;
    assert TrailingSpaces(s) == 0;
    assert TrailingSpaces(u) == 1;
  }

  // ---------------------------------------------------------------------------
  // slice() and padStart()
  // ---------------------------------------------------------------------------

  /** `s.slice(-k)` for a positive `k`: the last `min(k, |s|)` characters. */
  function LastChars(s: string, k: nat): (r: string)
    requires k > 0
    ensures |r| == if |s| < k then |s| else k
    ensures forall i :: 0 <= i < |r| ==> r[i] == s[|s| - |r| + i]
  {
    if |s| < k then s else s[|s| - k..]
  }

  /** Inside the Basic Multilingual Plane characters and UTF-16 code units agree, so there
      `LastChars` keeps the last `min(k, s.length)` code units, as `slice(-k)` does. */
  lemma {:induction false} LastCharsInPlane(s: string, k: nat)
    requires k > 0
    requires forall i :: 0 <= i < |s| ==> s[i] as int < 0x10000
    ensures var r := LastChars(s, k);
      && r == s[|s| - |r|..]
      && JsLength(r) == if JsLength(s) < k then JsLength(s) else k
  {
    var r := LastChars(s, k);
    assert r == s[|s| - |r|..];
    assert forall i :: 0 <= i < |r| ==> r[i] as int < 0x10000;
  }

  /** Outside that plane they differ: "ab", the emoji U+1F600 and "cdefg" is eight characters
      and nine code units, so `LastChars(s, 8)` keeps all nine units where `slice(-8)` keeps eight. */
  lemma {:induction false} LastCharsCountsCharacters()
    ensures var s := "ab" + "\U{1F600}" + "cdefg";
      && |s| == 8 && JsLength(s) == 9
      && LastChars(s, 8) == s && JsLength(LastChars(s, 8)) == 9
  {
    var s := "ab" + "\U{1F600}" + "cdefg";
    JsLengthConcat("ab" + "\U{1F600}", "cdefg");
    JsLengthConcat("ab", "\U{1F600}");
    SurrogatePairLength();
  }

  /** `s.slice(0, k)`: the first `min(k, |s|)` characters. */
  function FirstChars(s: string, k: nat): (r: string)
    ensures |r| == if |s| < k then |s| else k
    ensures r <= s
    ensures forall i :: 0 <= i < |r| ==> r[i] == s[i]
  {
    if |s| < k then s else s[..k]
  }

  /** `s.padStart(width, fill)` with a one-character fill. */
  function PadStart(s: string, width: nat, fill: char): (r: string)
    ensures |r| == if |s| < width then width else |s|
    ensures forall i :: 0 <= i < |r| - |s| ==> r[i] == fill
    ensures r[|r| - |s|..] == s
  {
    if |s| < width then seq(width - |s|, _ => fill) + s else s
  }

  predicate StartsWith(s: string, prefix: string) {
    prefix <= s
  }

  // ---------------------------------------------------------------------------
  // Number.prototype.toString() on integers
  // ---------------------------------------------------------------------------

  function DigitChar(d: nat): (c: char)
    requires d < 10
    ensures IsDigit(c)
  {
    ('0' as int + d) as char
  }

  function DigitValue(c: char): nat
    requires IsDigit(c)
  {
    c as int - '0' as int
  }

  predicate AllDigits(s: string) {
    forall i :: 0 <= i < |s| ==> IsDigit(s[i])
  }

  /** The decimal numeral of `n`: no leading zero, last digit `n % 10`. */
  function NatToString(n: nat): (r: string)
    ensures 1 <= |r|
    ensures AllDigits(r)
    ensures r[0] == '0' ==> n == 0
  {
    if n < 10 then [DigitChar(n)] else NatToString(n / 10) + [DigitChar(n % 10)]
  }

  /** The numeral ends in the units digit, and it is a single digit exactly below ten. */
  lemma {:induction false} NatToStringLastDigit(n: nat)
    ensures var r := NatToString(n); r[|r| - 1] == DigitChar(n % 10) && (n < 10 <==> |r| == 1)
  {
    if n >= 10 {
      assert |NatToString(n / 10)| >= 1;
    }
  }

  /** The value of a string of decimal digits, the inverse of `NatToString`. */
  function ParseNat(s: string): nat
    requires AllDigits(s)
  {
    if |s| == 0 then 0 else 10 * ParseNat(s[..|s| - 1]) + DigitValue(s[|s| - 1])
  }

  lemma {:induction false} ParseNatToString(n: nat)
    ensures ParseNat(NatToString(n)) == n
  {
    var s := NatToString(n);
    if n >= 10 {
      ParseNatToString(n / 10);
      assert s[..|s| - 1] == NatToString(n / 10);
    }
  }

  /** A leading zero does not change the value of a numeral. */
  lemma {:induction false} ParseNatLeadingZero(s: string)
    requires AllDigits(s)
    ensures AllDigits("0" + s) && ParseNat("0" + s) == ParseNat(s)
  {
    var z := "0" + s;
    if |s| == 0 {
      assert z[..0] == [];
    } else {
      assert z[..|z| - 1] == "0" + s[..|s| - 1];
      ParseNatLeadingZero(s[..|s| - 1]);
    }
  }

  /** A decimal numeral with an optional leading '-'. */
  predicate IsIntNumeral(s: string) {
    |s| > 0 && if s[0] == '-' then |s| > 1 && AllDigits(s[1..]) else AllDigits(s)
  }

  /** The value of a numeral with an optional leading '-'. */
  function ParseInt(s: string): int
    requires IsIntNumeral(s)
  {
    if s[0] == '-' then -(ParseNat(s[1..]) as int) else ParseNat(s)
  }

  /** The numeral of a whole number: it starts with '-' exactly when the number is negative,
      and it reads back to the number. */
  function IntToString(n: int): (r: string)
    ensures IsIntNumeral(r) && ParseInt(r) == n
    ensures r[0] == '-' <==> n < 0
  {
    if n < 0 then
      var r := "-" + NatToString(-n);
      assert r[1..] == NatToString(-n);
      ParseNatToString(-n);
      r
    else
      ParseNatToString(n);
      NatToString(n)
  }

  /** Padding a numeral with zeros keeps it a numeral of the same value. */
  lemma {:induction false} PaddedNumeralValue(digits: string, width: nat)
    requires AllDigits(digits)
    ensures AllDigits(PadStart(digits, width, '0'))
    ensures ParseNat(PadStart(digits, width, '0')) == ParseNat(digits)
    decreases width
  {
    if |digits| < width {
      var shorter := PadStart(digits, width - 1, '0');
      assert PadStart(digits, width, '0') == "0" + shorter;
      PaddedNumeralValue(digits, width - 1);
      ParseNatLeadingZero(shorter);
    }
  }

  /** Quotient and remainder are the only pair that rebuilds `n` with a remainder below `d`. */
  lemma {:induction false} DivModUnique(n: int, d: int, q: int, r: int)
    requires d > 0 && 0 <= r < d && n == q * d + r
    ensures n / d == q && n % d == r
  {
    var q', r' := n / d, n % d;
    if q > q' {
      MultipleAtLeast(q - q', d);
    } else if q < q' {
      MultipleAtLeast(q' - q, d);
    }
  }

  lemma {:induction false} MultipleAtLeast(k: int, d: int)
    requires k >= 1 && d > 0
    ensures k * d >= d
  {
    assert (k - 1) * d >= 0;
  }

  // ---------------------------------------------------------------------------
  // Words separated by single blanks
  // ---------------------------------------------------------------------------

  /** `words.join(" ")`. */
  function Join(ws: seq<string>): string {
    if |ws| == 0 then "" else if |ws| == 1 then ws[0] else ws[0] + " " + Join(ws[1..])
  }

  /** Concatenation is associative. */
  lemma {:induction false} ConcatAssoc(x: string, y: string, z: string)
    ensures (x + y) + z == x + (y + z)
  {
  }

  /** The first characters of a concatenation are its left operand. */
  lemma {:induction false} PrefixOfConcat(x: string, y: string)
    ensures (x + y)[..|x|] == x
  {
  }

  lemma {:induction false} JoinAppend(a: seq<string>, b: seq<string>)
    requires |a| > 0 && |b| > 0
    ensures Join(a + b) == Join(a) + " " + Join(b)
  {
    if |a| == 1 {
      assert (a + b)[1..] == b;
    } else {
      assert (a + b)[1..] == a[1..] + b;
      JoinAppend(a[1..], b);
    }
  }

  /** A word neither starts nor ends with white space. */
  predicate IsWord(w: string) {
    Trimmed(w)
  }

  /** Joining words gives a string that `trim` leaves alone. */
  lemma {:induction false} JoinOfWordsIsTrimmed(ws: seq<string>)
    requires |ws| > 0
    requires forall i :: 0 <= i < |ws| ==> IsWord(ws[i])
    ensures Trimmed(Join(ws))
    ensures Join(ws)[0] == ws[0][0]
  {
    if |ws| > 1 {
      JoinOfWordsIsTrimmed(ws[1..]);
    }
  }
}

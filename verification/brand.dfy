/** The licence invoice number `INV-<yy><mm>-<last eight characters of the licence id>`.
    The calendar year and the zero-based month index, which the program reads from the clock,
    are parameters here. */
module Brand {
  import opened Text

  /** `generateInvoiceNumber(licenseId)` on a date in `fullYear` whose month index is `monthIndex`. */
  function GenerateInvoiceNumber(licenseId: string, fullYear: int, monthIndex: int): (r: string)
    requires 0 <= monthIndex < 12
    ensures |r| >= 8 && r[..4] == "INV-"
    ensures fullYear >= 10 ==> |r| == 9 + (if |licenseId| < 8 then |licenseId| else 8) && r[8] == '-'
  {
    var yy, mm, id := YearPart(fullYear), MonthPart(monthIndex), ShortId(licenseId);
    Layout(yy, mm, id);
    "INV-" + yy + mm + "-" + id
  }

  /** `getFullYear().toString().slice(-2)`: for a year of two digits or more, its last two digits,
      which read back as the year modulo 100. */
  function YearPart(fullYear: int): (y: string)
    ensures 1 <= |y| <= 2
    ensures fullYear >= 10 ==> |y| == 2 && AllDigits(y) && ParseNat(y) == fullYear % 100
  {
    var y := LastChars(IntToString(fullYear), 2);
    assert fullYear >= 10 ==> |y| == 2 && AllDigits(y) && ParseNat(y) == fullYear % 100 by {
      if fullYear >= 10 { YearField(fullYear); }
    }
    y
  }

  /** `(getMonth() + 1).toString().padStart(2, "0")`: "01" to "12", read back as the month
      index plus one. */
  function MonthPart(monthIndex: int): (m: string)
    requires 0 <= monthIndex < 12
    ensures |m| == 2 && AllDigits(m) && ParseNat(m) == monthIndex + 1
  {
    MonthNumeral(monthIndex + 1);
    PadStart(NatToString(monthIndex + 1), 2, '0')
  }

  /** `licenseId.slice(-8).toUpperCase()`: the last (at most) eight characters, upper-cased. */
  function ShortId(licenseId: string): (t: string)
    ensures |t| == if |licenseId| < 8 then |licenseId| else 8
    ensures forall j :: 0 <= j < |t| ==> !IsLower(t[j])
  {
    ToUpperFixesUpperCase(LastChars(licenseId, 8));
    ToUpper(LastChars(licenseId, 8))
  }

  /** Character `j` of the short id is the upper-cased character at the same place from the end
      of the licence id. */
  lemma {:induction false} ShortIdChar(licenseId: string, j: int)
    requires 0 <= j < |ShortId(licenseId)|
    ensures ShortId(licenseId)[j] == UpperChar(licenseId[|licenseId| - |ShortId(licenseId)| + j])
  {
    var last := LastChars(licenseId, 8);
    assert ShortId(licenseId)[j] == UpperChar(last[j]);
  }

  /** The last two digits of a numeral of at least two digits. */
  lemma {:induction false} LastTwoDigits(n: nat)
    requires n >= 10
    ensures var s := NatToString(n);
      |s| >= 2 && s[|s| - 2..] == [DigitChar((n / 10) % 10), DigitChar(n % 10)]
  {
    var q, d := n / 10, n % 10;
    var s, t := NatToString(n), NatToString(q);
    assert s == t + [DigitChar(d)];
    NatToStringLastDigit(q);
    assert t[|t| - 1] == DigitChar(q % 10);
    assert s[|s| - 2] == t[|t| - 1] && s[|s| - 1] == DigitChar(d);
  }

  /** A two-digit numeral reads back as its decades and units. */
  lemma {:induction false} TwoDigitValue(a: nat, b: nat)
    requires a < 10 && b < 10
    ensures AllDigits([DigitChar(a), DigitChar(b)])
    ensures ParseNat([DigitChar(a), DigitChar(b)]) == 10 * a + b
  {
    var s := [DigitChar(a), DigitChar(b)];
    assert s[..1] == [DigitChar(a)] && s[..1][..0] == [];
    assert DigitValue(DigitChar(a)) == a && DigitValue(DigitChar(b)) == b;
    assert ParseNat(s[..1]) == 10 * ParseNat(s[..1][..0]) + DigitValue(s[0]) == a;
    assert ParseNat(s) == 10 * ParseNat(s[..1]) + DigitValue(s[1]);
  }

  lemma {:induction false} DecadesAndUnits(n: nat)
    ensures 10 * ((n / 10) % 10) + n % 10 == n % 100
  {
    var q, r := n / 100, n % 100;
    var d, u := r / 10, r % 10;
    assert r == 10 * d + u && 0 <= d < 10;
    DivModUnique(n, 10, 10 * q + d, u);
    DivModUnique(10 * q + d, 10, q, d);
  }

  /** The two-digit month numeral `01` to `12`. */
  lemma {:induction false} MonthNumeral(month: nat)
    requires 1 <= month <= 12
    ensures var m := PadStart(NatToString(month), 2, '0');
      |m| == 2 && AllDigits(m) && ParseNat(m) == month
  {
    var s := NatToString(month);
    ParseNatToString(month);
    NatToStringLastDigit(month);
    if month < 10 {
      assert PadStart(s, 2, '0') == "0" + s;
      ParseNatLeadingZero(s);
    } else {
      assert s == NatToString(month / 10) + [DigitChar(month % 10)];
      assert |s| == 2;
    }
  }

  /** The last two characters of a year numeral of two digits or more. */
  lemma {:induction false} YearField(fullYear: int)
    requires fullYear >= 10
    ensures var y := LastChars(IntToString(fullYear), 2);
      |y| == 2 && AllDigits(y) && ParseNat(y) == fullYear % 100
  {
    var y := LastChars(IntToString(fullYear), 2);
    var digits := [DigitChar((fullYear / 10) % 10), DigitChar(fullYear % 10)];
    LastTwoDigits(fullYear);
    assert y == digits;
    TwoDigitValue((fullYear / 10) % 10, fullYear % 10);
    DecadesAndUnits(fullYear);
  }

  /** The positions of the parts of `INV-<yy><mm>-<id>` for a year field of one or two characters. */
  lemma {:induction false} Layout(yy: string, mm: string, id: string)
    requires 1 <= |yy| <= 2 && |mm| == 2
    ensures var r := "INV-" + yy + mm + "-" + id;
      && |r| == 7 + |yy| + |id|
      && r[..4] == "INV-"
      && r[4..4 + |yy|] == yy && r[4 + |yy|..6 + |yy|] == mm && r[6 + |yy|] == '-' && r[7 + |yy|..] == id
  {
    var a := "INV-" + yy;
    var b := a + mm;
    var c := b + "-";
    var r := c + id;
    PrefixOfConcat(c, id);
    PrefixOfConcat(b, "-");
    PrefixOfConcat(a, mm);
    PrefixOfConcat("INV-", yy);
    assert r[..4] == "INV-" by {
      assert r[..|c|][..4] == r[..4];
      assert c[..|b|][..4] == c[..4];
      assert b[..|a|][..4] == b[..4];
    }
    assert r[4..4 + |yy|] == yy by {
      assert r[..|c|][4..4 + |yy|] == r[4..4 + |yy|];
      assert c[..|b|][4..4 + |yy|] == c[4..4 + |yy|];
      assert b[..|a|][4..4 + |yy|] == b[4..4 + |yy|];
    }
    assert r[4 + |yy|..6 + |yy|] == mm by {
      assert r[..|c|][|a|..|b|] == r[|a|..|b|];
      assert c[..|b|][|a|..|b|] == c[|a|..|b|];
    }
    assert r[|c|..] == id;
  }

  /** The positions of the parts of `INV-<yy><mm>-<id>` with two-digit fields. */
  lemma {:induction false} InvoiceNumberLayout(yy: string, mm: string, id: string)
    requires |yy| == 2 && |mm| == 2 && AllDigits(yy) && AllDigits(mm)
    ensures var r := "INV-" + yy + mm + "-" + id;
      r[4..6] == yy && r[6..8] == mm && r[8] == '-' && r[9..] == id
  {
    Layout(yy, mm, id);
  }

  /** Read back, the number gives the year modulo 100 and the month (index plus one). */
  lemma {:induction false} InvoiceNumberFields(licenseId: string, fullYear: int, monthIndex: int)
    requires 0 <= monthIndex < 12 && fullYear >= 10
    ensures var r := GenerateInvoiceNumber(licenseId, fullYear, monthIndex);
      && AllDigits(r[4..6]) && AllDigits(r[6..8])
      && ParseNat(r[4..6]) == fullYear % 100
      && ParseNat(r[6..8]) == monthIndex + 1
      && 1 <= ParseNat(r[6..8]) <= 12
  {
    InvoiceNumberLayout(YearPart(fullYear), MonthPart(monthIndex), ShortId(licenseId));
  }

  /** A string whose tail from position 9 on is `ShortId(id)` carries its characters there. */
  lemma {:induction false} TailChars(r: string, id: string)
    requires |r| >= 9 && r[9..] == ShortId(id)
    ensures var k := if |id| < 8 then |id| else 8;
      && (forall i :: 9 <= i < 9 + k ==> r[i] == UpperChar(id[|id| - k + i - 9]))
      && (forall i :: 9 <= i < |r| ==> !IsLower(r[i]))
  {
    var tail := ShortId(id);
    var k := if |id| < 8 then |id| else 8;
    assert |tail| == k && |r| == 9 + k;
    forall i | 9 <= i < |r|
      ensures r[i] == UpperChar(id[|id| - k + i - 9]) && !IsLower(r[i])
    {
      var j := i - 9;
      assert r[i] == r[9..][j] == tail[j];
      ShortIdChar(id, j);
    }
  }

  /** The suffix is the licence id's last (at most) eight characters, upper-cased character by
      character, and holds no lower-case letter. */
  lemma {:induction false} InvoiceNumberSuffix(licenseId: string, fullYear: int, monthIndex: int)
    requires 0 <= monthIndex < 12 && fullYear >= 10
    ensures var r := GenerateInvoiceNumber(licenseId, fullYear, monthIndex);
      var k := if |licenseId| < 8 then |licenseId| else 8;
      && (forall i :: 9 <= i < 9 + k ==> r[i] == UpperChar(licenseId[|licenseId| - k + i - 9]))
      && (forall i :: 9 <= i < |r| ==> !IsLower(r[i]))
  {
    var r := GenerateInvoiceNumber(licenseId, fullYear, monthIndex);
    InvoiceNumberLayout(YearPart(fullYear), MonthPart(monthIndex), ShortId(licenseId));
    TailChars(r, licenseId);
  }
}

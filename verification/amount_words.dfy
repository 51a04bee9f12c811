/** The invoice's "amount in words" (`numberToWords`): a whole rupee amount spelled
    out in the Indian numbering system (thousand, lakh = 10^5, crore = 10^7).

    The spelled text is related to a reference reading: the amount is spelled as a
    sequence of `Word` tokens, every token is printed as one English word, and a
    tally evaluator reads the tokens back to the number they name. */
module AmountWords {
  import opened Results
  import opened Text
  import opened Money

  const Ones: seq<string> := ["", "One", "Two", "Three", "Four", "Five", "Six", "Seven", "Eight", "Nine"]
  const Tens: seq<string> := ["", "", "Twenty", "Thirty", "Forty", "Fifty", "Sixty", "Seventy", "Eighty", "Ninety"]
  const Teens: seq<string> := ["Ten", "Eleven", "Twelve", "Thirteen", "Fourteen", "Fifteen", "Sixteen",
                               "Seventeen", "Eighteen", "Nineteen"]

  const Crore: nat := 10000000
  const Lakh: nat := 100000

  /** `ones[i]`: `undefined` outside the table. */
  function OnesAt(i: int): (r: Option<string>)
    ensures r.Some? <==> 0 <= i < 10
  {
    if 0 <= i < |Ones| then Some(Ones[i]) else None
  }

  /** A possibly `undefined` value as string concatenation renders it. */
  function Str(v: Option<string>): string {
    match v
    case Some(s) => s
    case None => "undefined"
  }

  /** `convertLessThanThousand`. Despite its name it accepts any number: a negative one
      reads `ones` out of range and yields `undefined`, and from 1000 on the hundreds
      digit `floor(n / 100)` is out of range and prints as "undefined". */
  function ConvertLessThanThousand(n: int): (r: Option<string>)
    ensures r.None? <==> n < 0
    decreases if n < 0 then 0 else n
  {
    if n == 0 then Some("")
    else if n < 10 then OnesAt(n)
    else if n < 20 then Some(Teens[n - 10])
    else if n < 100 then Some(Tens[n / 10] + (if n % 10 != 0 then " " + Ones[n % 10] else ""))
    else Some(Str(OnesAt(n / 100)) + " Hundred"
              + (if n % 100 != 0 then " " + Str(ConvertLessThanThousand(n % 100)) else ""))
  }

  // ---------------------------------------------------------------------------
  // Reference reading: tokens and their value
  // ---------------------------------------------------------------------------

  /** One spoken word: a number word (one to nineteen, or a multiple of ten up to
      ninety) or a scale word. */
  datatype Word = Number(n: nat) | Hundred | Thousand | LakhWord | CroreWord | Rupees

  predicate ValidWord(w: Word) {
    w.Number? ==> 1 <= w.n < 20 || (w.n % 10 == 0 && 20 <= w.n < 100)
  }

  predicate ValidWords(ws: seq<Word>) {
    forall i :: 0 <= i < |ws| ==> ValidWord(ws[i])
  }

  function Spell(w: Word): string {
    match w
    case Number(n) =>
      if n < 10 then Ones[n] else if n < 20 then Teens[n - 10] else if n < 100 then Tens[n / 10] else ""
    case Hundred => "Hundred"
    case Thousand => "Thousand"
    case LakhWord => "Lakh"
    case CroreWord => "Crore"
    case Rupees => "Rupees"
  }

  function Spells(ws: seq<Word>): (r: seq<string>)
    ensures |r| == |ws|
    ensures forall i :: 0 <= i < |ws| ==> r[i] == Spell(ws[i])
  {
    seq(|ws|, i requires 0 <= i < |ws| => Spell(ws[i]))
  }

  /** The tokens as text: their spellings separated by single blanks. */
  function Speak(ws: seq<Word>): string {
    Join(Spells(ws))
  }

  /** The words `n < 1000` is spoken with: "Nine Hundred Ninety Nine". */
  function SmallWords(n: nat): (ws: seq<Word>)
    requires n < 1000
    ensures ValidWords(ws)
    ensures ws == [] <==> n == 0
  {
    if n == 0 then []
    else if n < 20 then [Number(n)]
    else if n < 100 then [Number(n / 10 * 10)] + (if n % 10 != 0 then [Number(n % 10)] else [])
    else [Number(n / 100), Hundred] + SmallWords(n % 100)
  }

  /** `<count words> <scale>` when the count is not zero, nothing otherwise. */
  function Group(count: nat, ws: seq<Word>, scale: Word): (g: seq<Word>)
    ensures count > 0 ==> |g| > 0
  {
    if count > 0 then ws + [scale] else []
  }

  /** The words of an amount split into crores, lakhs, thousands and the last three
      digits, given the words of the crore count. */
  function Grouped(croreWords: seq<Word>, crores: nat, lakhs: nat, thousands: nat, remainder: nat): (ws: seq<Word>)
    requires lakhs < 1000 && thousands < 1000 && remainder < 1000
    ensures ValidWords(croreWords) ==> ValidWords(ws)
    ensures crores > 0 || lakhs > 0 || thousands > 0 || remainder > 0 ==> ws != []
  {
    var g := Group(crores, croreWords, CroreWord) + Group(lakhs, SmallWords(lakhs), LakhWord)
             + Group(thousands, SmallWords(thousands), Thousand) + SmallWords(remainder);
    if ValidWords(croreWords) then
      ValidWordsAppend(croreWords, [CroreWord]);
      ValidWordsAppend(SmallWords(lakhs), [LakhWord]);
      ValidWordsAppend(SmallWords(thousands), [Thousand]);
      ValidWordsAppend(Group(crores, croreWords, CroreWord), Group(lakhs, SmallWords(lakhs), LakhWord));
      ValidWordsAppend(Group(crores, croreWords, CroreWord) + Group(lakhs, SmallWords(lakhs), LakhWord),
                       Group(thousands, SmallWords(thousands), Thousand));
      ValidWordsAppend(Group(crores, croreWords, CroreWord) + Group(lakhs, SmallWords(lakhs), LakhWord)
                       + Group(thousands, SmallWords(thousands), Thousand), SmallWords(remainder));
      g
    else g
  }

  /** The words of any whole number: crores (themselves spoken as a number), lakhs,
      thousands and the last three digits. */
  function IndianWords(n: nat): (ws: seq<Word>)
    ensures ValidWords(ws)
    ensures ws == [] <==> n == 0
  {
    if n < 1000 then SmallWords(n)
    else
      IndianGroups(n);
      Grouped(IndianWords(n / Crore), n / Crore, (n % Crore) / Lakh, (n % Lakh) / 1000, n % 1000)
  }

  /** The state of reading words left to right: the completed groups and the group being read. */
  datatype Tally = Tally(total: nat, current: nat)

  function Step(t: Tally, w: Word): Tally {
    match w
    case Number(n) => Tally(t.total, t.current + n)
    case Hundred => Tally(t.total, t.current * 100)
    case Thousand => Tally(t.total + t.current * 1000, 0)
    case LakhWord => Tally(t.total + t.current * Lakh, 0)
    case CroreWord => Tally((t.total + t.current) * Crore, 0)
    case Rupees => t
  }

  function Run(ws: seq<Word>, t: Tally): Tally
    decreases |ws|
  {
    if |ws| == 0 then t else Run(ws[1..], Step(t, ws[0]))
  }

  /** The number a sequence of words names. */
  function Amount(ws: seq<Word>): nat {
    var t := Run(ws, Tally(0, 0));
    t.total + t.current
  }

  lemma {:induction false} RunAppend(a: seq<Word>, b: seq<Word>, t: Tally)
    ensures Run(a + b, t) == Run(b, Run(a, t))
  {
    if |a| == 0 {
      assert a + b == b;
    } else {
      assert (a + b)[0] == a[0];
      assert (a + b)[1..] == a[1..] + b;
      RunAppend(a[1..], b, Step(t, a[0]));
    }
  }

  /** Reading the words of `n < 1000` adds `n` to the open group (which must be empty
      when `n` has a hundreds digit). */
  lemma {:induction false} SmallWordsRun(n: nat, t: Tally)
    requires n < 1000
    requires n < 100 || t.current == 0
    ensures Run(SmallWords(n), t) == Tally(t.total, t.current + n)
  {
    if n == 0 {
    } else if n < 20 {
    } else if n < 100 {
      var tens := [Number(n / 10 * 10)];
      var units: seq<Word> := if n % 10 != 0 then [Number(n % 10)] else [];
      RunAppend(tens, units, t);
    } else {
      var head := [Number(n / 100), Hundred];
      RunAppend(head, SmallWords(n % 100), t);
      assert head[1..] == [Hundred] && [Hundred][1..] == [];
      assert Run(head, t) == Tally(t.total, (n / 100) * 100);
      SmallWordsRun(n % 100, Run(head, t));
    }
  }

  /** A word group `<n> <scale>` adds `n` times the scale to the completed groups. */
  lemma {:induction false} GroupRun(n: nat, scale: Word, t: Tally)
    requires 0 < n < 100 && t.current == 0
    requires scale == Thousand || scale == LakhWord
    ensures Run(SmallWords(n) + [scale], t)
            == Tally(t.total + n * (if scale == Thousand then 1000 else Lakh), 0)
  {
    RunAppend(SmallWords(n), [scale], t);
    SmallWordsRun(n, t);
  }

  /** The positional decomposition the Indian grouping relies on. */
  lemma {:induction false} IndianGroups(n: nat)
    ensures n == (n / Crore) * Crore + ((n % Crore) / Lakh) * Lakh + ((n % Lakh) / 1000) * 1000 + n % 1000
    ensures (n % Crore) / Lakh < 100 && (n % Lakh) / 1000 < 100
  {
    var q, a := n / 10000000, n % 10000000;
    var p, b := a / 100000, a % 100000;
    var s, u := b / 1000, b % 1000;
    assert n == q * 10000000 + a && 0 <= a < 10000000;
    assert a == p * 100000 + b && 0 <= b < 100000 && p < 100;
    assert b == s * 1000 + u && 0 <= u < 1000 && s < 100;
    DivModUnique(n, 100000, q * 100 + p, b);
    DivModUnique(n, 1000, q * 10000 + p * 100 + s, u);
    assert Crore == 10000000 && Lakh == 100000;
  }

  /** Reading the words of `n` from the start gives back `n`. */
  lemma {:induction false} IndianWordsAmount(n: nat)
    ensures Amount(IndianWords(n)) == n
    ensures Run(IndianWords(n) + [CroreWord], Tally(0, 0)) == Tally(n * Crore, 0)
  {
    var start := Tally(0, 0);
    if n < 1000 {
      SmallWordsRun(n, start);
    } else {
      var crores, lakhs, thousands, remainder := n / Crore, (n % Crore) / Lakh, (n % Lakh) / 1000, n % 1000;
      IndianGroups(n);
      var c := Group(crores, IndianWords(crores), CroreWord);
      var l := Group(lakhs, SmallWords(lakhs), LakhWord);
      var k := Group(thousands, SmallWords(thousands), Thousand);
      var r := SmallWords(remainder);
      assert IndianWords(n) == c + l + k + r;
      var t1 := Run(c, start);
      if crores > 0 {
        IndianWordsAmount(crores);
      }
      assert t1 == Tally(crores * Crore, 0);
      var t2 := Run(l, t1);
      if lakhs > 0 {
        GroupRun(lakhs, LakhWord, t1);
      }
      assert t2 == Tally(crores * Crore + lakhs * Lakh, 0);
      var t3 := Run(k, t2);
      if thousands > 0 {
        GroupRun(thousands, Thousand, t2);
      }
      assert t3 == Tally(crores * Crore + lakhs * Lakh + thousands * 1000, 0);
      SmallWordsRun(remainder, t3);
      RunAppend(c, l, start);
      RunAppend(c + l, k, start);
      RunAppend(c + l + k, r, start);
    }
    RunAppend(IndianWords(n), [CroreWord], start);
  }

  // ---------------------------------------------------------------------------
  // Spelling
  // ---------------------------------------------------------------------------

  lemma {:induction false} SpellIsWord(w: Word)
    requires ValidWord(w)
    ensures IsWord(Spell(w))
  {
    if w.Number? {
      var n := w.n;
      if n < 10 {
        assert n in {1, 2, 3, 4, 5, 6, 7, 8, 9};
      } else if n < 20 {
        assert n - 10 in {0, 1, 2, 3, 4, 5, 6, 7, 8, 9};
      } else {
        assert n / 10 in {2, 3, 4, 5, 6, 7, 8, 9};
      }
    }
  }

  lemma {:induction false} SpeakAppend(a: seq<Word>, b: seq<Word>)
    requires |a| > 0 && |b| > 0
    ensures Speak(a + b) == Speak(a) + " " + Speak(b)
  {
    assert Spells(a + b) == Spells(a) + Spells(b);
    JoinAppend(Spells(a), Spells(b));
  }

  lemma {:induction false} SpeakIsTrimmed(ws: seq<Word>)
    requires |ws| > 0 && ValidWords(ws)
    ensures Trimmed(Speak(ws))
  {
    forall i | 0 <= i < |ws| ensures IsWord(Spells(ws)[i]) {
      SpellIsWord(ws[i]);
    }
    JoinOfWordsIsTrimmed(Spells(ws));
  }

  lemma {:induction false} SpeakOne(w: Word)
    ensures Speak([w]) == Spell(w)
  {
    assert Spells([w]) == [Spell(w)];
  }

  /** Below a hundred, `convertLessThanThousand` prints exactly the reference words. */
  lemma {:induction false} ConvertSpeaksBelowHundred(n: nat)
    requires n < 100
    ensures ConvertLessThanThousand(n) == Some(Speak(SmallWords(n)))
  {
    if n == 0 {
    } else if n < 20 {
      SpeakOne(Number(n));
    } else {
      var tens := Number(n / 10 * 10);
      assert 20 <= tens.n < 100 && tens.n / 10 == n / 10;
      assert Spell(tens) == Tens[n / 10];
      SpeakOne(tens);
      if n % 10 != 0 {
        assert SmallWords(n) == [tens] + [Number(n % 10)];
        SpeakOne(Number(n % 10));
        SpeakAppend([tens], [Number(n % 10)]);
        assert Tens[n / 10] + (" " + Ones[n % 10]) == Tens[n / 10] + " " + Ones[n % 10];
      } else {
        assert SmallWords(n) == [tens];
        assert Tens[n / 10] + "" == Tens[n / 10];
      }
    }
  }

  /** "<d> Hundred", followed by the rest of the words when there are any. */
  lemma {:induction false} HundredsPhrase(d: nat, rest: seq<Word>)
    requires 1 <= d < 10
    ensures Speak([Number(d), Hundred] + rest)
            == Ones[d] + " Hundred" + (if rest != [] then " " + Speak(rest) else "")
  {
    var head := [Number(d), Hundred];
    assert Speak(head) == Ones[d] + " Hundred" by {
      SpeakAppend([Number(d)], [Hundred]);
      SpeakOne(Number(d));
      SpeakOne(Hundred);
      assert [Number(d)] + [Hundred] == head;
    }
    if rest != [] {
      SpeakAppend(head, rest);
    } else {
      assert head + rest == head;
    }
  }

  /** Below a thousand, `convertLessThanThousand` prints exactly the reference words. */
  lemma {:induction false} ConvertSpeaksSmallWords(n: nat)
    requires n < 1000
    ensures ConvertLessThanThousand(n) == Some(Speak(SmallWords(n)))
  {
    if n < 100 {
      ConvertSpeaksBelowHundred(n);
    } else {
      var d, r := n / 100, n % 100;
      ConvertSpeaksBelowHundred(r);
      assert ConvertLessThanThousand(n)
             == Some(Ones[d] + " Hundred" + (if r != 0 then " " + Speak(SmallWords(r)) else ""));
      assert SmallWords(n) == [Number(d), Hundred] + SmallWords(r);
      HundredsPhrase(d, SmallWords(r));
    }
  }

  // ---------------------------------------------------------------------------
  // numberToWords
  // ---------------------------------------------------------------------------

  /** The text built for an amount of at least a thousand, given the phrase printed
      for its crore count. */
  function Assemble(crorePhrase: string, rounded: nat): string
    requires rounded >= 1000
  {
    WriteGroups(crorePhrase, rounded / Crore, (rounded % Crore) / Lakh, (rounded % Lakh) / 1000, rounded % 1000)
  }

  /** Each non-empty group followed by its scale and a blank, then the last three
      digits, trimmed, then " Rupees". */
  function WriteGroups(crorePhrase: string, crores: int, lakhs: int, thousands: int, remainder: int): string {
    var r1 := AddGroup("", crores, crorePhrase, "Crore");
    var r2 := AddGroup(r1, lakhs, Str(ConvertLessThanThousand(lakhs)), "Lakh");
    var r3 := AddGroup(r2, thousands, Str(ConvertLessThanThousand(thousands)), "Thousand");
    var r4 := if remainder > 0 then r3 + Str(ConvertLessThanThousand(remainder)) else r3;
    Trim(r4) + " Rupees"
  }

  /** `if (count > 0) result += phrase + " <scale> "`. */
  function AddGroup(acc: string, count: int, phrase: string, scale: string): string {
    if count > 0 then acc + phrase + " " + scale + " " else acc
  }

  /** `numberToWords` as written: the crore count goes through `convertLessThanThousand`,
      which misprints counts of a thousand crores and more. */
  function NumberToWordsAsWritten(num: real): (r: Option<string>)
    ensures r.None? <==> num != 0.0 && Round0(num) < 0
    ensures num == 0.0 ==> r == Some("Zero")
  {
    if num == 0.0 then Some("Zero")
    else
      var rounded := Round0(num);
      if rounded < 1000 then ConvertLessThanThousand(rounded)
      else Some(Assemble(Str(ConvertLessThanThousand(rounded / Crore)), rounded))
  }

  /** `numberToWords` with the crore count spoken as a number in its own right. */
  function NumberToWords(num: real): (r: Option<string>)
    ensures r.None? <==> num != 0.0 && Round0(num) < 0
    ensures num == 0.0 ==> r == Some("Zero")
  {
    if num == 0.0 then Some("Zero")
    else
      var rounded := Round0(num);
      if rounded < 1000 then ConvertLessThanThousand(rounded)
      else Some(Assemble(Speak(IndianWords(rounded / Crore)), rounded))
  }

  /** The reference words of a non-negative rounded amount: below a thousand the
      bare number, otherwise the number followed by "Rupees". */
  function Spoken(rounded: nat): seq<Word> {
    if rounded < 1000 then SmallWords(rounded) else IndianWords(rounded) + [Rupees]
  }

  lemma {:induction false} ValidWordsAppend(a: seq<Word>, b: seq<Word>)
    requires ValidWords(a) && ValidWords(b)
    ensures ValidWords(a + b)
  {
    forall i | 0 <= i < |a + b| ensures ValidWord((a + b)[i]) {
      if i >= |a| {
        assert (a + b)[i] == b[i - |a|];
      }
    }
  }

  lemma {:induction false} ValidWordsPrefix(a: seq<Word>, b: seq<Word>)
    requires ValidWords(a + b)
    ensures ValidWords(a)
  {
    forall i | 0 <= i < |a| ensures ValidWord(a[i]) {
      assert a[i] == (a + b)[i];
    }
  }

  /** The running text after some groups: empty, or their words followed by a blank. */
  function Written(sofar: seq<Word>): string {
    if sofar == [] then "" else Speak(sofar) + " "
  }

  /** Appending `<count> <scale> ` to the running text appends the group's words. */
  lemma {:induction false} GroupStep(acc: string, sofar: seq<Word>, count: nat, phrase: string, ws: seq<Word>, scale: Word)
    requires acc == Written(sofar)
    requires count > 0 ==> |ws| > 0 && phrase == Speak(ws)
    ensures AddGroup(acc, count, phrase, Spell(scale)) == Written(sofar + Group(count, ws, scale))
  {
    if count > 0 {
      WriteGroupWords(sofar, ws, scale);
    } else {
      assert sofar + [] == sofar;
    }
  }

  /** The words of a group and its scale, written after the running text. */
  lemma {:induction false} WriteGroupWords(sofar: seq<Word>, ws: seq<Word>, scale: Word)
    requires |ws| > 0
    ensures Written(sofar) + Speak(ws) + " " + Spell(scale) + " " == Written(sofar + (ws + [scale]))
  {
    var group := ws + [scale];
    var b := Speak(ws);
    assert Speak(group) == b + " " + Spell(scale) by {
      SpeakAppend(ws, [scale]);
      SpeakOne(scale);
    }
    if sofar != [] {
      SpeakAppend(sofar, group);
      var p, c := Speak(sofar) + " ", Spell(scale);
      ConcatAssoc(p, b, " ");
      ConcatAssoc(p, b + " ", c);
      assert Written(sofar + group) == p + (b + " " + c) + " ";
      assert Written(sofar) + b + " " + c + " " == p + (b + " " + c) + " ";
    } else {
      assert sofar + group == group;
      assert Written(sofar) == "";
      assert "" + b == b by { ConcatAssoc("", b, ""); }
    }
  }

  /** Closing the running text with the last three digits (if any), trimming it and adding "Rupees". */
  lemma {:induction false} CloseStep(acc: string, sofar: seq<Word>, remainder: nat)
    requires acc == Written(sofar) && remainder < 1000
    requires ValidWords(sofar) && (sofar != [] || remainder > 0)
    ensures Trim(if remainder > 0 then acc + Str(ConvertLessThanThousand(remainder)) else acc) + " Rupees"
            == Speak(sofar + SmallWords(remainder) + [Rupees])
  {
    var all := sofar + SmallWords(remainder);
    ValidWordsAppend(sofar, SmallWords(remainder));
    assert Trim(if remainder > 0 then acc + Str(ConvertLessThanThousand(remainder)) else acc) == Speak(all) by {
      if remainder > 0 {
        CloseWithDigits(acc, sofar, remainder);
      } else {
        assert all == sofar;
        SpeakIsTrimmed(sofar);
        TrimDropsTrailingBlank(Speak(sofar));
      }
    }
    RupeesSuffix(all);
  }

  /** With a non-zero last group the running text ends in its words, with nothing to trim. */
  lemma {:induction false} CloseWithDigits(acc: string, sofar: seq<Word>, remainder: nat)
    requires acc == Written(sofar) && 0 < remainder < 1000 && ValidWords(sofar)
    ensures Trim(acc + Str(ConvertLessThanThousand(remainder))) == Speak(sofar + SmallWords(remainder))
  {
    var last := SmallWords(remainder);
    var all := sofar + last;
    ConvertSpeaksSmallWords(remainder);
    assert Str(ConvertLessThanThousand(remainder)) == Speak(last);
    if sofar != [] {
      SpeakAppend(sofar, last);
      assert acc + Speak(last) == Speak(all);
    } else {
      assert all == last;
      assert acc + Speak(last) == Speak(last) by { ConcatAssoc("", Speak(last), ""); }
    }
    ValidWordsAppend(sofar, last);
    SpeakIsTrimmed(all);
    TrimKeepsTrimmed(Speak(all));
  }

  /** Spelling the words and then " Rupees" is spelling the words followed by the `Rupees` word. */
  lemma {:induction false} RupeesSuffix(ws: seq<Word>)
    requires ws != []
    ensures Speak(ws) + " Rupees" == Speak(ws + [Rupees])
  {
    SpeakAppend(ws, [Rupees]);
    SpeakOne(Rupees);
    ConcatAssoc(Speak(ws), " ", "Rupees");
    assert " " + "Rupees" == " Rupees";
  }

  /** The groups are written as the spelling of their words. */
  lemma {:induction false} WriteGroupsSpeaks(cw: seq<Word>, crores: nat, lakhs: nat, thousands: nat, remainder: nat)
    requires lakhs < 1000 && thousands < 1000 && remainder < 1000
    requires ValidWords(cw) && (crores > 0 ==> cw != [])
    requires crores > 0 || lakhs > 0 || thousands > 0 || remainder > 0
    ensures WriteGroups(Speak(cw), crores, lakhs, thousands, remainder)
            == Speak(Grouped(cw, crores, lakhs, thousands, remainder) + [Rupees])
  {
    var c := Group(crores, cw, CroreWord);
    var l := Group(lakhs, SmallWords(lakhs), LakhWord);
    var k := Group(thousands, SmallWords(thousands), Thousand);
    var r1 := AddGroup("", crores, Speak(cw), "Crore");
    GroupStep("", [], crores, Speak(cw), cw, CroreWord);
    assert [] + c == c;
    ConvertSpeaksSmallWords(lakhs);
    var r2 := AddGroup(r1, lakhs, Str(ConvertLessThanThousand(lakhs)), "Lakh");
    GroupStep(r1, c, lakhs, Str(ConvertLessThanThousand(lakhs)), SmallWords(lakhs), LakhWord);
    ConvertSpeaksSmallWords(thousands);
    GroupStep(r2, c + l, thousands, Str(ConvertLessThanThousand(thousands)), SmallWords(thousands), Thousand);
    assert Grouped(cw, crores, lakhs, thousands, remainder) == c + l + k + SmallWords(remainder);
    assert ValidWords(c + l + k + SmallWords(remainder));
    ValidWordsPrefix(c + l + k, SmallWords(remainder));
    CloseStep(AddGroup(r2, thousands, Str(ConvertLessThanThousand(thousands)), "Thousand"), c + l + k, remainder);
  }

  lemma {:induction false} AssembleSpeaks(rounded: nat)
    requires rounded >= 1000
    ensures Assemble(Speak(IndianWords(rounded / Crore)), rounded) == Speak(IndianWords(rounded) + [Rupees])
  {
    IndianGroups(rounded);
    WriteGroupsSpeaks(IndianWords(rounded / Crore), rounded / Crore, (rounded % Crore) / Lakh,
                      (rounded % Lakh) / 1000, rounded % 1000);
  }

  /** What the corrected `numberToWords` prints for a non-negative amount: the reference
      words of the rounded amount, which read back to it. */
  lemma {:induction false} NumberToWordsSpeaksAmount(num: real)
    requires num != 0.0 && Round0(num) >= 0
    ensures NumberToWords(num) == Some(Speak(Spoken(Round0(num))))
    ensures Amount(Spoken(Round0(num))) == Round0(num)
  {
    var rounded := Round0(num);
    if rounded < 1000 {
      ConvertSpeaksSmallWords(rounded);
      IndianWordsAmount(rounded);
    } else {
      AssembleSpeaks(rounded);
      IndianWordsAmount(rounded);
      RunAppend(IndianWords(rounded), [Rupees], Tally(0, 0));
    }
  }

  /** Two non-negative amounts that round differently are spoken with different words. */
  lemma {:induction false} SpokenIsInjective(m: nat, n: nat)
    requires Spoken(m) == Spoken(n)
    ensures m == n
  {
    if m < 1000 {
      IndianWordsAmount(m);
    } else {
      IndianWordsAmount(m);
      RunAppend(IndianWords(m), [Rupees], Tally(0, 0));
    }
    if n < 1000 {
      IndianWordsAmount(n);
    } else {
      IndianWordsAmount(n);
      RunAppend(IndianWords(n), [Rupees], Tally(0, 0));
    }
  }

  /** Below ten thousand crore (10^10) the crore count is below a thousand and both
      versions print the same text. */
  lemma {:induction false} AsWrittenAgreesBelowTenBillion(num: real)
    requires Round0(num) < 10000000000
    ensures NumberToWordsAsWritten(num) == NumberToWords(num)
  {
    var rounded := Round0(num);
    if num != 0.0 && rounded >= 1000 {
      var crores := rounded / Crore;
      assert crores < 1000;
      ConvertSpeaksSmallWords(crores);
    }
  }

  /** The rounded amount of ten thousand crore rupees splits into a crore count of 1000
      and nothing else. */
  lemma {:induction false} TenThousandCroreGroups()
    ensures Round0(10000000000.0) == 10000000000
    ensures 10000000000 / Crore == 1000 && (10000000000 % Crore) / Lakh == 0
    ensures (10000000000 % Lakh) / 1000 == 0 && 10000000000 % 1000 == 0
  {
    Round0Unique(10000000000.0, 10000000000);
  }

  /** An amount of whole crores is written as its crore phrase alone. */
  lemma {:induction false} OnlyCrores(phrase: string, rounded: nat)
    requires rounded >= Crore && rounded % Crore == 0 && Trimmed(phrase)
    ensures Assemble(phrase, rounded) == phrase + " Crore" + " Rupees"
  {
    var q := rounded / Crore;
    assert rounded == (q * 100) * Lakh;
    assert rounded % Lakh == 0;
    assert rounded == (q * 10000) * 1000;
    assert rounded % 1000 == 0;
    assert AddGroup("", q, phrase, "Crore") == (phrase + " Crore") + " ";
    TrimDropsTrailingBlank(phrase + " Crore");
  }

  /** A crore count of 1000 is printed with hundreds digit `ones[10]`. */
  lemma {:induction false} ThousandCroresPhrase(crores: int)
    requires crores == 1000
    ensures ConvertLessThanThousand(crores) == Some("undefined Hundred")
    ensures Speak(IndianWords(crores)) == "One Thousand"
  {
    assert OnesAt(crores / 100) == None;
    assert Str(OnesAt(crores / 100)) == "undefined";
    assert "undefined" + " Hundred" + "" == "undefined Hundred";
    assert SmallWords(1) == [Number(1)];
    assert SmallWords(0) == [];
    assert IndianWords(crores) == [Number(1), Thousand];
    SpeakAppend([Number(1)], [Thousand]);
    SpeakOne(Number(1));
    SpeakOne(Thousand);
    assert [Number(1)] + [Thousand] == [Number(1), Thousand];
  }

  lemma {:induction false} CroreRupeesText(phrase: string)
    ensures phrase == "undefined Hundred" ==> phrase + " Crore" + " Rupees" == "undefined Hundred Crore Rupees"
    ensures phrase == "One Thousand" ==> phrase + " Crore" + " Rupees" == "One Thousand Crore Rupees"
  {
  }

  /** Ten thousand crore rupees: the as-written conversion prints "undefined" for the
      crore count 1000. */
  lemma {:induction false} TenThousandCroreMisprinted(num: real)
    requires num == 10000000000.0
    ensures NumberToWordsAsWritten(num) == Some("undefined Hundred Crore Rupees")
  {
    TenThousandCroreGroups();
    LargeAmounts(num);
    var rounded := Round0(num);
    assert rounded / Crore == 1000;
    ThousandCroresPhrase(1000);
    ThousandCroreRupees(Str(ConvertLessThanThousand(1000)), rounded);
  }

  /** The corrected conversion prints "One Thousand Crore Rupees" for the same amount. */
  lemma {:induction false} TenThousandCroreSpoken(num: real)
    requires num == 10000000000.0
    ensures NumberToWords(num) == Some("One Thousand Crore Rupees")
  {
    TenThousandCroreGroups();
    LargeAmounts(num);
    var rounded := Round0(num);
    assert rounded / Crore == 1000;
    ThousandCroresPhrase(1000);
    ThousandCroreRupees(Speak(IndianWords(1000)), rounded);
  }

  /** Ten thousand crore rupees, with either phrase for the crore count. */
  lemma {:induction false} ThousandCroreRupees(phrase: string, rounded: nat)
    requires rounded == 10000000000
    requires phrase == "undefined Hundred" || phrase == "One Thousand"
    ensures phrase == "undefined Hundred" ==> Assemble(phrase, rounded) == "undefined Hundred Crore Rupees"
    ensures phrase == "One Thousand" ==> Assemble(phrase, rounded) == "One Thousand Crore Rupees"
  {
    assert Trimmed(phrase);
    OnlyCrores(phrase, rounded);
    CroreRupeesText(phrase);
  }

  /** From a thousand on, both versions assemble the groups; they differ only in the crore phrase. */
  lemma {:induction false} LargeAmounts(num: real)
    requires num != 0.0 && Round0(num) >= 1000
    ensures NumberToWordsAsWritten(num) == Some(Assemble(Str(ConvertLessThanThousand(Round0(num) / Crore)), Round0(num)))
    ensures NumberToWords(num) == Some(Assemble(Speak(IndianWords(Round0(num) / Crore)), Round0(num)))
  {
  }
}

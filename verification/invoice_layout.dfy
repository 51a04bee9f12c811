/** The data the tax invoice shows for a `TaxResult`: the single item row, the
    tax-summary rows (which components appear, in which order) and the amount in
    words. Fonts, coordinates and the drawing itself are not part of the model. */
module InvoiceLayout {
  import opened Results
  import opened Money
  import opened Gst
  import AmountWords

  /** The row labels of the tax summary; component labels carry their rate in percent. */
  datatype Label =
    | TaxableLabel
    | CgstLabel(percent: real)
    | SgstLabel(percent: real)
    | IgstLabel(percent: real)
    | TotalTaxLabel
    | TotalAmountLabel
  {
    predicate IsComponent() {
      CgstLabel? || SgstLabel? || IgstLabel?
    }
  }

  datatype Row = Row(kind: Label, amount: real)

  /** The CGST and SGST rows, shown only when both amounts are positive; each at half the rate. */
  function PairRows(t: TaxResult): seq<Row> {
    if t.cgstAmount > 0.0 && t.sgstAmount > 0.0 then
      var half := t.meta.rateApplied * 100.0 / 2.0;
      [Row(CgstLabel(half), t.cgstAmount), Row(SgstLabel(half), t.sgstAmount)]
    else []
  }

  /** The IGST row, shown only when the amount is positive. */
  function IgstRows(t: TaxResult): seq<Row> {
    if t.igstAmount > 0.0 then [Row(IgstLabel(t.meta.rateApplied * 100.0), t.igstAmount)] else []
  }

  /** The tax summary: taxable amount, the components that are due, total tax, total amount. */
  function TaxSummary(t: TaxResult): (rows: seq<Row>)
    ensures 3 <= |rows| <= 6
    ensures rows[0] == Row(TaxableLabel, t.taxableAmount)
    ensures rows[|rows| - 2] == Row(TotalTaxLabel, t.totalTax)
    ensures rows[|rows| - 1] == Row(TotalAmountLabel, t.totalAmount as real)
    ensures forall i :: 1 <= i < |rows| - 2 <==> 0 <= i < |rows| && rows[i].kind.IsComponent()
    ensures (exists i :: 0 <= i < |rows| && rows[i].kind.CgstLabel?) <==> t.cgstAmount > 0.0 && t.sgstAmount > 0.0
    ensures (exists i :: 0 <= i < |rows| && rows[i].kind.SgstLabel?) <==> t.cgstAmount > 0.0 && t.sgstAmount > 0.0
    ensures (exists i :: 0 <= i < |rows| && rows[i].kind.IgstLabel?) <==> t.igstAmount > 0.0
  {
    var rows := [Row(TaxableLabel, t.taxableAmount)] + PairRows(t) + IgstRows(t)
                + [Row(TotalTaxLabel, t.totalTax), Row(TotalAmountLabel, t.totalAmount as real)];
    assert t.cgstAmount > 0.0 && t.sgstAmount > 0.0 ==> rows[1].kind.CgstLabel? && rows[2].kind.SgstLabel?;
    assert t.igstAmount > 0.0 ==> rows[1 + |PairRows(t)|].kind.IgstLabel?;
    rows
  }

  /** The component rows of a summary: everything between the taxable amount and the totals. */
  function ComponentRows(t: TaxResult): (rows: seq<Row>)
    ensures rows == PairRows(t) + IgstRows(t)
  {
    var all := TaxSummary(t);
    assert all == [Row(TaxableLabel, t.taxableAmount)] + (PairRows(t) + IgstRows(t))
                  + [Row(TotalTaxLabel, t.totalTax), Row(TotalAmountLabel, t.totalAmount as real)];
    all[1..|all| - 2]
  }

  /** The number of component rows: two for a positive CGST and SGST pair, one for a positive IGST. */
  lemma {:induction false} ComponentRowCount(t: TaxResult)
    ensures |ComponentRows(t)| == (if t.cgstAmount > 0.0 && t.sgstAmount > 0.0 then 2 else 0)
                                  + (if t.igstAmount > 0.0 then 1 else 0)
  {
  }

  function SumAmounts(rows: seq<Row>): real {
    if |rows| == 0 then 0.0 else rows[0].amount + SumAmounts(rows[1..])
  }

  lemma {:induction false} SumAmountsAppend(a: seq<Row>, b: seq<Row>)
    ensures SumAmounts(a + b) == SumAmounts(a) + SumAmounts(b)
  {
    if |a| == 0 {
      assert a + b == b;
    } else {
      assert (a + b)[1..] == a[1..] + b;
      SumAmountsAppend(a[1..], b);
    }
  }

  /** A result the engine can produce for a non-negative taxable sum: equal, non-negative
      CGST and SGST, at most one of the pair and IGST non-zero, and the total tax their sum. */
  predicate EngineShaped(t: TaxResult) {
    && t.cgstAmount == t.sgstAmount
    && t.cgstAmount >= 0.0 && t.igstAmount >= 0.0
    && (t.cgstAmount == 0.0 || t.igstAmount == 0.0)
    && t.totalTax == t.cgstAmount + t.sgstAmount + t.igstAmount
  }

  /** For engine output the summary holds at most two component rows (the pair, or IGST
      alone), and the components shown add up to the total tax row. */
  lemma {:induction false} SummaryOfEngineOutput(t: TaxResult)
    requires EngineShaped(t)
    ensures |ComponentRows(t)| <= 2
    ensures SumAmounts(ComponentRows(t)) == t.totalTax
  {
    var pair, igst := PairRows(t), IgstRows(t);
    SumAmountsAppend(pair, igst);
    if t.cgstAmount > 0.0 {
      assert SumAmounts(pair) == t.cgstAmount + t.sgstAmount;
    }
    if t.igstAmount > 0.0 {
      assert SumAmounts(igst) == t.igstAmount;
    }
  }

  /** The engine's results are shaped that way whenever the lines sum to a non-negative amount. */
  lemma {:induction false} EngineOutputIsShaped(seller: string, customer: CustomerDetails, pos: Pos, items: seq<LineItem>,
                             isRcm: bool, suggestion: string)
    requires SumLines(items) >= 0.0
    ensures EngineShaped(Determine(seller, customer, pos, items, isRcm, suggestion))
  {
    DeterminedTaxes(seller, customer, pos, items, isRcm, suggestion);
    var s := SumLines(items);
    if !ZeroRated(customer, isRcm) {
      Round2NonNegative(s * Rate);
      Round2NonNegative(s * Rate / 2.0);
    }
  }

  /** The single item row: description, SAC, quantity, rate and amount. */
  datatype ItemRow = ItemRow(description: string, sac: string, quantity: string, rate: real, amount: real)

  /** The item row shows one unit of the whole taxable amount under the result's SAC. */
  function ItemLine(description: string, t: TaxResult): (r: ItemRow)
    ensures r.quantity == "1" && r.sac == t.sacCode
    ensures r.rate == r.amount == t.taxableAmount
  {
    ItemRow(description, t.sacCode, "1", t.taxableAmount, t.taxableAmount)
  }

  /** For engine output the item row carries SAC 9983 and the rounded sum of the lines. */
  lemma {:induction false} ItemLineOfEngineOutput(description: string, seller: string, customer: CustomerDetails, pos: Pos,
                               items: seq<LineItem>, isRcm: bool, suggestion: string)
    ensures var r := ItemLine(description, Determine(seller, customer, pos, items, isRcm, suggestion));
      r.sac == "9983" && r.quantity == "1" && r.amount == Round2(SumLines(items)) && r.description == description
  {
    DeterminedTaxes(seller, customer, pos, items, isRcm, suggestion);
  }

  /** "Amount in words: <words of the total amount> Only", as the invoice prints it with
      `numberToWords` as written. Below ten thousand crore rupees it is the corrected line. */
  function WordsLineAsWritten(t: TaxResult): (r: string)
    ensures t.totalAmount < 10000000000 ==> r == WordsLine(t)
    ensures t.totalAmount == 0 ==> r == "Amount in words: Zero Only"
  {
    var num := t.totalAmount as real;
    Round0Unique(num, t.totalAmount);
    assert t.totalAmount < 10000000000 ==>
      AmountWords.NumberToWordsAsWritten(num) == AmountWords.NumberToWords(num) by {
      if t.totalAmount < 10000000000 {
        AmountWords.AsWrittenAgreesBelowTenBillion(num);
      }
    }
    "Amount in words: " + AmountWords.Str(AmountWords.NumberToWordsAsWritten(num)) + " Only"
  }

  /** The words line with the corrected conversion of the crore count. */
  function WordsLine(t: TaxResult): (r: string)
    ensures t.totalAmount == 0 ==> r == "Amount in words: Zero Only"
  {
    "Amount in words: " + AmountWords.Str(AmountWords.NumberToWords(t.totalAmount as real)) + " Only"
  }

  /** From a thousand rupees on, the corrected words line spells the reference words of the total
      amount. */
  lemma {:induction false} WordsLineSpellsTotal(t: TaxResult)
    requires t.totalAmount >= 1000
    ensures WordsLine(t) == "Amount in words: "
                            + AmountWords.Speak(AmountWords.IndianWords(t.totalAmount) + [AmountWords.Rupees]) + " Only"
  {
    var num := t.totalAmount as real;
    Round0Unique(num, t.totalAmount);
    AmountWords.NumberToWordsSpeaksAmount(num);
  }

  /** At ten thousand crore rupees the printed words line carries the misprinted crore count,
      where the corrected line says "One Thousand Crore Rupees". */
  lemma {:induction false} WordsLineMisprintsTenThousandCrore(t: TaxResult)
    requires t.totalAmount == 10000000000
    ensures WordsLineAsWritten(t) == "Amount in words: " + "undefined Hundred Crore Rupees" + " Only"
    ensures WordsLine(t) == "Amount in words: " + "One Thousand Crore Rupees" + " Only"
  {
    Round0Unique(t.totalAmount as real, t.totalAmount);
    AmountWords.TenThousandCroreMisprinted(t.totalAmount as real);
    AmountWords.TenThousandCroreSpoken(t.totalAmount as real);
  }
}

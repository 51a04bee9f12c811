/** Worked cases of the engine: a seller registered in Maharashtra (state code 27)
    invoicing one licence of 10,000 rupees at the 18% rate. */
module Scenarios {
  import opened Results
  import opened Text
  import opened Money
  import opened Gst
  import InvoiceLayout

  /** A GSTIN registered in Maharashtra and one registered in Karnataka. */
  const MaharashtraGstin: string := "27AABCU9603R1ZM"
  const KarnatakaGstin: string := "29AABCU9603R1ZJ"

  /** The single line: one unit at 10,000 rupees, no discount. */
  predicate OneLicence(items: seq<LineItem>) {
    |items| == 1 && items[0].unitPrice == 10000.0 && items[0].quantity == 1.0 && items[0].discount == None
  }

  function Registered(gstin: string): CustomerDetails {
    CustomerDetails(Some(gstin), None, false, false, false)
  }

  lemma {:induction false} SampleGstins(g: string)
    requires g == MaharashtraGstin || g == KarnatakaGstin
    ensures GstinShape(g)
    ensures g[..2] == (if g == MaharashtraGstin then "27" else "29")
  {
  }

  /** The line sum, its rounding and the tax at the full rate and at half of it. */
  lemma {:induction false} OneLicenceAmounts(items: seq<LineItem>)
    requires OneLicence(items)
    ensures SumLines(items) == 10000.0
    ensures Round2(SumLines(items)) == 10000.0
    ensures Round2(SumLines(items) * Rate) == 1800.0
    ensures Round2(SumLines(items) * Rate / 2.0) == 900.0
    ensures Round0(10000.0 + 1800.0) == 11800
    ensures Round0(10000.0 + 0.0) == 10000
  {
    assert SumLines(items) == SumLines(items[..0]) + LineTotal(items[0]);
    Round2Unique(10000.0, 10000.0);
    Round2Unique(1800.0, 1800.0);
    Round2Unique(900.0, 900.0);
    Round0Unique(11800.0, 11800);
    Round0Unique(10000.0, 10000);
  }

  /** The place of supply the invoice prints for an export. */
  lemma {:induction false} ForeignPlaceOfSupply()
    ensures ExportStateCode + " - " + StateName(ExportStateCode) == "96 - Foreign Country"
  {
    assert StateName(ExportStateCode) == "Foreign Country";
  }

  /** A registered customer's place of supply is the state code of the GSTIN. */
  lemma {:induction false} RegisteredPlaceOfSupply(g: string)
    requires g == MaharashtraGstin || g == KarnatakaGstin
    ensures PlaceOfSupply(Registered(g)).Ok?
    ensures PlaceOfSupply(Registered(g)).value.code == if g == MaharashtraGstin then "27" else "29"
  {
    SampleGstins(g);
  }

  /** The tax on the single licence: nothing when zero-rated, otherwise 1,800 rupees as
      IGST or as two halves of 900, and the total rounded to whole rupees. */
  lemma {:induction false} OneLicenceTaxes(seller: string, customer: CustomerDetails, pos: Pos, items: seq<LineItem>, isRcm: bool,
                        suggestion: string)
    requires OneLicence(items)
    ensures var t := Determine(seller, customer, pos, items, isRcm, suggestion);
      && (ZeroRated(customer, isRcm) ==>
            t.cgstAmount == 0.0 && t.sgstAmount == 0.0 && t.igstAmount == 0.0 && t.totalTax == 0.0
            && t.totalAmount == 10000)
      && (!ZeroRated(customer, isRcm) && IgstApplies(customer, pos.code, seller) ==>
            t.igstAmount == 1800.0 && t.cgstAmount == 0.0 && t.sgstAmount == 0.0 && t.totalTax == 1800.0
            && t.totalAmount == 11800)
      && (!ZeroRated(customer, isRcm) && !IgstApplies(customer, pos.code, seller) ==>
            t.cgstAmount == 900.0 && t.sgstAmount == 900.0 && t.igstAmount == 0.0 && t.totalTax == 1800.0
            && t.totalAmount == 11800)
  {
    DeterminedTaxes(seller, customer, pos, items, isRcm, suggestion);
    OneLicenceAmounts(items);
  }

  /** Scenario A: intra-state B2B supply. CGST and SGST of 900 each, no IGST,
      1,800 of tax and 11,800 in all; the invoice summary shows exactly the two
      component rows. */
  lemma {:induction false} IntraStateSupply(engine: Calculator, customer: CustomerDetails, items: seq<LineItem>, year: int, sequence: nat)
    requires engine.config.sellerStateCode == "27"
    requires customer == Registered(MaharashtraGstin) && OneLicence(items)
    ensures var r := Calculate(engine, customer, items, false, year, sequence);
      && r.Ok?
      && r.value.transactionType == B2B
      && r.value.cgstAmount == 900.0 && r.value.sgstAmount == 900.0 && r.value.igstAmount == 0.0
      && r.value.totalTax == 1800.0 && r.value.totalAmount == 11800
      && |InvoiceLayout.ComponentRows(r.value)| == 2
  {
    RegisteredPlaceOfSupply(MaharashtraGstin);
    OneLicenceTaxes("27", customer, PlaceOfSupply(customer).value, items, false, FyInvoiceNumber(year, sequence));
    InvoiceLayout.ComponentRowCount(Calculate(engine, customer, items, false, year, sequence).value);
  }

  /** Scenario B: the same supply to a customer registered in Karnataka is inter-state:
      IGST of 1,800 and no CGST or SGST. */
  lemma {:induction false} InterStateSupply(engine: Calculator, customer: CustomerDetails, items: seq<LineItem>, year: int, sequence: nat)
    requires engine.config.sellerStateCode == "27"
    requires customer == Registered(KarnatakaGstin) && OneLicence(items)
    ensures var r := Calculate(engine, customer, items, false, year, sequence);
      && r.Ok?
      && r.value.transactionType == B2B
      && r.value.igstAmount == 1800.0 && r.value.cgstAmount == 0.0 && r.value.sgstAmount == 0.0
      && r.value.totalTax == 1800.0 && r.value.totalAmount == 11800
      && |InvoiceLayout.ComponentRows(r.value)| == 1
  {
    RegisteredPlaceOfSupply(KarnatakaGstin);
    OneLicenceTaxes("27", customer, PlaceOfSupply(customer).value, items, false, FyInvoiceNumber(year, sequence));
    InvoiceLayout.ComponentRowCount(Calculate(engine, customer, items, false, year, sequence).value);
  }

  /** Scenario C: an export under a Letter of Undertaking is zero-rated; the total is
      the taxable amount. */
  lemma {:induction false} ExportUnderLut(engine: Calculator, customer: CustomerDetails, items: seq<LineItem>, year: int, sequence: nat)
    requires customer.isForeign && customer.hasLut && OneLicence(items)
    ensures var r := Calculate(engine, customer, items, false, year, sequence);
      && r.Ok?
      && r.value.transactionType == Export
      && r.value.totalTax == 0.0 && r.value.totalAmount == 10000
      && r.value.placeOfSupply == "96 - Foreign Country"
      && |InvoiceLayout.ComponentRows(r.value)| == 0
  {
    var pos := PlaceOfSupply(customer).value;
    var t := Determine(engine.config.sellerStateCode, customer, pos, items, false, FyInvoiceNumber(year, sequence));
    assert Calculate(engine, customer, items, false, year, sequence) == Ok(t);
    assert pos.code == "96";
    ForeignPlaceOfSupply();
    assert ZeroRated(customer, false);
    OneLicenceTaxes(engine.config.sellerStateCode, customer, pos, items, false, FyInvoiceNumber(year, sequence));
    InvoiceLayout.ComponentRowCount(t);
  }

  /** Scenario D: reverse charge on the intra-state supply of scenario A: still B2B and
      intra-state, but no tax on the invoice. */
  lemma {:induction false} ReverseCharge(engine: Calculator, customer: CustomerDetails, items: seq<LineItem>, year: int, sequence: nat)
    requires engine.config.sellerStateCode == "27"
    requires customer == Registered(MaharashtraGstin) && OneLicence(items)
    ensures var r := Calculate(engine, customer, items, true, year, sequence);
      && r.Ok?
      && r.value.transactionType == B2B && r.value.isRcm
      && r.value.cgstAmount == 0.0 && r.value.igstAmount == 0.0
      && r.value.totalTax == 0.0 && r.value.totalAmount == 10000
      && r.value.meta.logicTrace[|r.value.meta.logicTrace| - 1] == RcmEntry
  {
    RegisteredPlaceOfSupply(MaharashtraGstin);
    OneLicenceTaxes("27", customer, PlaceOfSupply(customer).value, items, true, FyInvoiceNumber(year, sequence));
  }

  /** Scenario E: an unregistered domestic customer without a state code is refused. */
  lemma {:induction false} MissingStateCode(engine: Calculator, customer: CustomerDetails, items: seq<LineItem>, isRcm: bool,
                         year: int, sequence: nat)
    requires !customer.isForeign && customer.gstin == None && customer.stateCode == None
    ensures Calculate(engine, customer, items, isRcm, year, sequence) == Err(StateCodeRequired)
    ensures StateCodeRequired.Message() == "State code required for non-GST registered customer"
  {
  }
}

/** The GST tax-determination engine: place of supply, transaction class,
    IGST versus the CGST + SGST pair, zero-rating (exports and SEZ supplies
    under a Letter of Undertaking, section 16 of the IGST Act, 2017), reverse
    charge, invoice-level rounding and the ordered audit trace. */
module Gst {
  import opened Results
  import opened Text
  import opened Money
  import Patterns

  // ---------------------------------------------------------------------------
  // Constants
  // ---------------------------------------------------------------------------

  /** SAC 9983: other professional, technical and business (IT) services. */
  const SacCodeSaas: string := "9983"

  /** The pseudo state code used as the place of supply of an export. */
  const ExportStateCode: string := "96"

  /** GST state codes and their names. "28" (undivided Andhra Pradesh) is not in the table. */
  const StateCodes: map<string, string> := map[
    "01" := "Jammu & Kashmir", "02" := "Himachal Pradesh", "03" := "Punjab", "04" := "Chandigarh",
    "05" := "Uttarakhand", "06" := "Haryana", "07" := "Delhi", "08" := "Rajasthan", "09" := "Uttar Pradesh",
    "10" := "Bihar", "11" := "Sikkim", "12" := "Arunachal Pradesh", "13" := "Nagaland", "14" := "Manipur",
    "15" := "Mizoram", "16" := "Tripura", "17" := "Meghalaya", "18" := "Assam", "19" := "West Bengal",
    "20" := "Jharkhand", "21" := "Odisha", "22" := "Chhattisgarh", "23" := "Madhya Pradesh", "24" := "Gujarat",
    "25" := "Daman & Diu", "26" := "Dadra & Nagar Haveli", "27" := "Maharashtra", "29" := "Karnataka",
    "30" := "Goa", "31" := "Lakshadweep", "32" := "Kerala", "33" := "Tamil Nadu", "34" := "Puducherry",
    "35" := "Andaman & Nicobar Islands", "36" := "Telangana", "37" := "Andhra Pradesh", "38" := "Ladakh",
    "97" := "Other Territory", "96" := "Foreign Country"
  ]

  /** `getRate`: the standard rate for SaaS, 18%, whatever the date. */
  const Rate: real := 0.18

  // ---------------------------------------------------------------------------
  // Data model
  // ---------------------------------------------------------------------------

  datatype RoundingMode = LineLevel | InvoiceLevel

  /** The transaction classes. `DeemedExport` is declared but never produced. */
  datatype TransactionType = B2B | B2C | SezWithPayment | SezWithoutPayment | Export | DeemedExport

  /** How the place of supply was determined. */
  datatype PosSource = FromGstin | ManualState | ExportDefault

  /** The seller's configuration. The date override is not modelled: the rate does not depend on it. */
  datatype TaxConfig = TaxConfig(sellerStateCode: string, sellerGstin: string, roundingMode: Option<RoundingMode>)

  datatype LineItem = LineItem(description: string, sacCode: string, unitPrice: real, quantity: real, discount: Option<real>)

  /** A customer; absent flags are `false`, absent strings `None`. */
  datatype CustomerDetails = CustomerDetails(
    gstin: Option<string>,
    stateCode: Option<string>,
    isSez: bool,
    hasLut: bool,
    isForeign: bool)

  datatype Meta = Meta(rateApplied: real, posSource: PosSource, logicTrace: seq<string>)

  /** The engine's output. The calculation timestamp is not modelled. */
  datatype TaxResult = TaxResult(
    transactionType: TransactionType,
    placeOfSupply: string,
    isRcm: bool,
    taxableAmount: real,
    cgstAmount: real,
    sgstAmount: real,
    igstAmount: real,
    totalTax: real,
    totalAmount: int,
    invoiceNumberSuggestion: string,
    sacCode: string,
    meta: Meta)

  /** The errors the engine throws. */
  datatype GstError =
    | SellerGstinInvalid
    | InvalidGstinFormat(gstin: string)
    | StateCodeRequired
    | InvalidStateCode(code: string)
  {
    function Message(): string {
      match this
      case SellerGstinInvalid => "Seller GSTIN is invalid"
      case InvalidGstinFormat(g) => "Invalid GSTIN format: " + g
      case StateCodeRequired => "State code required for non-GST registered customer"
      case InvalidStateCode(c) => "Invalid State Code: " + c
    }
  }

  // ---------------------------------------------------------------------------
  // GSTIN helpers
  // ---------------------------------------------------------------------------

  /** `^[0-9]{2}[A-Z]{5}[0-9]{4}[A-Z]{1}[1-9A-Z]{1}Z[0-9A-Z]{1}$` */
  const GstinPattern: seq<Patterns.CharClass> :=
    Patterns.Repeat(Patterns.Digit, 2) + Patterns.Repeat(Patterns.Upper, 5) + Patterns.Repeat(Patterns.Digit, 4)
    + [Patterns.Upper, Patterns.NonZeroDigitOrUpper, Patterns.Literal('Z'), Patterns.DigitOrUpper]

  /** `validateGSTIN`. */
  predicate ValidateGstin(gstin: string) {
    Patterns.MatchesFixed(gstin, GstinPattern)
  }

  /** The GSTIN shape spelled out position by position: state code, PAN
      (five letters, four digits, one letter), entity number, 'Z', check character. */
  predicate GstinShape(g: string) {
    && |g| == 15
    && IsDigit(g[0]) && IsDigit(g[1])
    && (forall i :: 2 <= i < 7 ==> IsUpper(g[i]))
    && (forall i :: 7 <= i < 11 ==> IsDigit(g[i]))
    && IsUpper(g[11])
    && (('1' <= g[12] <= '9') || IsUpper(g[12]))
    && g[13] == 'Z'
    && (IsDigit(g[14]) || IsUpper(g[14]))
  }

  lemma {:induction false} GstinPatternPositions()
    ensures |GstinPattern| == 15
    ensures forall i :: 0 <= i < 2 || 7 <= i < 11 ==> GstinPattern[i] == Patterns.Digit
    ensures forall i :: 2 <= i < 7 || i == 11 ==> GstinPattern[i] == Patterns.Upper
    ensures GstinPattern[12] == Patterns.NonZeroDigitOrUpper
    ensures GstinPattern[13] == Patterns.Literal('Z')
    ensures GstinPattern[14] == Patterns.DigitOrUpper
  {
  }

  /** The character the shape allows at position `i`. */
  predicate GstinCharOk(i: int, c: char) {
    if i < 2 || 7 <= i < 11 then IsDigit(c)
    else if i < 7 || i == 11 then IsUpper(c)
    else if i == 12 then ('1' <= c <= '9') || IsUpper(c)
    else if i == 13 then c == 'Z'
    else IsDigit(c) || IsUpper(c)
  }

  lemma {:induction false} GstinPositionMatches(i: int, c: char)
    requires 0 <= i < 15
    ensures Patterns.InClass(c, GstinPattern[i]) <==> GstinCharOk(i, c)
  {
    GstinPatternPositions();
    Patterns.ClassMeanings(c);
    if i == 13 {
      if Patterns.InClass(c, GstinPattern[i]) {
        var k :| 0 <= k < 1 && Patterns.Literal('Z')[k].lo <= c <= Patterns.Literal('Z')[k].hi;
      }
    }
  }

  lemma {:induction false} ValidateGstinIsShape(g: string)
    ensures ValidateGstin(g) <==> GstinShape(g)
  {
    GstinPatternPositions();
    if |g| == 15 {
      forall i | 0 <= i < 15 ensures Patterns.InClass(g[i], GstinPattern[i]) <==> GstinCharOk(i, g[i]) {
        GstinPositionMatches(i, g[i]);
      }
      assert GstinShape(g) <==> forall i :: 0 <= i < 15 ==> GstinCharOk(i, g[i]);
    }
  }

  /** A two-digit state code. */
  predicate IsTwoDigitCode(code: string) {
    |code| == 2 && IsDigit(code[0]) && IsDigit(code[1])
  }

  /** `getStateFromGSTIN`: the state code prefix of a valid GSTIN. */
  function StateFromGstin(gstin: string): (r: Result<string, GstError>)
    ensures r.Ok? <==> GstinShape(gstin)
    ensures r.Ok? ==> IsTwoDigitCode(r.value) && r.value <= gstin
    ensures r.Err? ==> r.error == InvalidGstinFormat(gstin)
  {
    ValidateGstinIsShape(gstin);
    if !ValidateGstin(gstin) then Err(InvalidGstinFormat(gstin)) else Ok(gstin[..2])
  }

  /** The display name of a state code (`STATE_CODES[pos] || 'Unknown'`). */
  function StateName(code: string): string {
    if code in StateCodes then StateCodes[code] else "Unknown"
  }

  /** A manual state code is accepted when it is a key of the state table. */
  predicate IsKnownStateCode(code: string) {
    code in StateCodes
  }

  /** Every accepted state code is a two-digit code. */
  lemma {:induction false} KnownStateCodesAreTwoDigits(code: string)
    ensures IsKnownStateCode(code) ==> IsTwoDigitCode(code)
  {
  }

  /** The members every JavaScript object literal inherits from `Object.prototype`. */
  const ObjectPrototypeKeys: set<string> := {
    "constructor", "hasOwnProperty", "isPrototypeOf", "propertyIsEnumerable", "toLocaleString",
    "toString", "valueOf", "__proto__", "__defineGetter__", "__defineSetter__",
    "__lookupGetter__", "__lookupSetter__"
  }

  /** The manual state-code check as written: `STATE_CODES[code]` is read on a
      plain object, so inherited members are truthy too. */
  predicate StateCodeAcceptedAsWritten(code: string) {
    code in StateCodes || code in ObjectPrototypeKeys
  }

  /** The check as written lets "constructor" through as a state code although it
      is not one; `IsKnownStateCode` rejects it. */
  lemma {:induction false} PrototypeKeyPassesStateCheck()
    ensures StateCodeAcceptedAsWritten("constructor")
    ensures !IsKnownStateCode("constructor")
    ensures !IsTwoDigitCode("constructor")
  {
  }

  /** `fyStartYear % 100` as JavaScript computes it: below 100 in size, a multiple of 100 away
      from the year, and never of the opposite sign. */
  predicate TwoDigitYearOf(yy: int, year: int) {
    && -100 < yy < 100
    && (year - yy) % 100 == 0
    && (yy > 0 ==> year > 0)
    && (yy < 0 ==> year < 0)
  }

  /** The two year numerals of `INV/<yy>-<yy+1>/`, read back from either side of the hyphen
      at `i`. */
  predicate YearFields(head: string, i: int, year: int)
    requires 4 < i < |head| - 1
  {
    && IsIntNumeral(head[4..i]) && IsIntNumeral(head[i + 1..|head| - 1])
    && TwoDigitYearOf(ParseInt(head[4..i]), year)
    && ParseInt(head[i + 1..|head| - 1]) == ParseInt(head[4..i]) + 1
  }

  /** The engine's own invoice-number suggestion, `INV/<yy>-<yy+1>/<seq padded to 4>`: the
      year prefix, then at least four digits that read back to the sequence number. */
  function FyInvoiceNumber(fyStartYear: int, sequence: nat): (r: string)
    ensures |r| >= 12 && r[..4] == "INV/"
    ensures var head := FyPrefix(fyStartYear);
      && |head| + 4 <= |r| && r[..|head|] == head
      && AllDigits(r[|head|..]) && ParseNat(r[|head|..]) == sequence
  {
    var head := FyPrefix(fyStartYear);
    var padded := PadStart(NatToString(sequence), 4, '0');
    PaddedNumeralValue(NatToString(sequence), 4);
    ParseNatToString(sequence);
    assert (head + padded)[..|head|] == head && (head + padded)[|head|..] == padded;
    head + padded
  }

  /** `INV/<yy>-<yy+1>/`: between "INV/" and the closing '/' stand, on either side of a hyphen,
      the numeral of the year's remainder modulo 100 (JavaScript's truncating `%`, so negative
      for a negative year) and the numeral of its successor. */
  function FyPrefix(fyStartYear: int): (head: string)
    ensures |head| >= 8 && head[..4] == "INV/" && head[|head| - 1] == '/'
    ensures exists i :: 4 < i < |head| - 1 && head[i] == '-' && YearFields(head, i, fyStartYear)
  {
    var yy := if fyStartYear >= 0 then fyStartYear % 100 else -((-fyStartYear) % 100);
    var a, b := IntToString(yy), IntToString(yy + 1);
    PrefixParts(a, b);
    TruncatedYear(fyStartYear, yy);
    var head := "INV/" + a + "-" + b + "/";
    assert YearFields(head, 4 + |a|, fyStartYear);
    head
  }

  /** Where the parts of `INV/<a>-<b>/` stand. */
  lemma {:induction false} PrefixParts(a: string, b: string)
    ensures var head := "INV/" + a + "-" + b + "/";
      && |head| == 6 + |a| + |b| && head[..4] == "INV/"
      && head[4..4 + |a|] == a && head[4 + |a|] == '-'
      && head[5 + |a|..|head| - 1] == b && head[|head| - 1] == '/'
  {
    var head := "INV/" + a + "-" + b + "/";
    assert head[..4] == "INV/";
    assert head[4..4 + |a|] == a;
    assert head[5 + |a|..|head| - 1] == b;
  }

  /** The engine's remainder is JavaScript's `fyStartYear % 100`. */
  lemma {:induction false} TruncatedYear(year: int, yy: int)
    requires yy == if year >= 0 then year % 100 else -((-year) % 100)
    ensures TwoDigitYearOf(yy, year)
  {
    if year >= 0 {
      DivModUnique(year - yy, 100, year / 100, 0);
    } else {
      var m := -year;
      assert year - yy == -(100 * (m / 100));
      DivModUnique(year - yy, 100, -(m / 100), 0);
    }
  }

  /** The remainder of a year that `TwoDigitYearOf` describes is unique: the description
      determines the year field completely. */
  lemma {:induction false} TwoDigitYearUnique(yy: int, yy': int, year: int)
    requires TwoDigitYearOf(yy, year) && TwoDigitYearOf(yy', year)
    ensures yy == yy'
  {
    var q, q' := (year - yy) / 100, (year - yy') / 100;
    DivModUnique(year - yy, 100, q, 0);
    DivModUnique(year - yy', 100, q', 0);
    assert yy' - yy == 100 * (q - q');
  }

  /** Worked case: the financial year 2025-26. */
  lemma {:induction false} FyPrefix2025()
    ensures FyPrefix(2025) == "INV/25-26/"
  {
    assert 2025 % 100 == 25;
    assert IntToString(25) == "25" by { assert NatToString(2) == "2"; }
    assert IntToString(26) == "26" by { assert NatToString(2) == "2"; }
    PrefixParts("25", "26");
  }

  /** Worked case: the year 2099, whose successor numeral has three digits. */
  lemma {:induction false} FyPrefix2099()
    ensures FyPrefix(2099) == "INV/99-100/"
  {
    assert 2099 % 100 == 99;
    assert IntToString(99) == "99" by { assert NatToString(9) == "9"; }
    assert IntToString(100) == "100" by { assert NatToString(10) == "10"; }
    PrefixParts("99", "100");
  }

  /** The suggestion ends in at least four digits, and the sequence number can be read back
      from its tail. */
  lemma {:induction false} FyInvoiceNumberEndsInSequence(fyStartYear: int, sequence: nat)
    ensures var r := FyInvoiceNumber(fyStartYear, sequence);
      && (forall i :: |r| - 4 <= i < |r| ==> IsDigit(r[i]))
      && |NatToString(sequence)| <= |r| && r[|r| - |NatToString(sequence)|..] == NatToString(sequence)
  {
    var r, digits := FyInvoiceNumber(fyStartYear, sequence), NatToString(sequence);
    var head := FyPrefix(fyStartYear);
    forall i | |r| - 4 <= i < |r| ensures IsDigit(r[i]) {
      assert r[i] == r[|head|..][i - |head|];
    }
    assert |digits| <= |r| && r[|r| - |digits|..] == digits by {
      var padded := PadStart(digits, 4, '0');
      assert r == head + padded;
      PaddedNumeralIsDigits(digits, 4);
      TailOfJoin(r, head, padded, digits);
    }
  }

  /** A prefix followed by a padded numeral ends in four digits and in the numeral itself. */
  lemma {:induction false} TailOfJoin(r: string, head: string, padded: string, digits: string)
    requires r == head + padded
    requires |padded| >= 4 && AllDigits(padded)
    requires |digits| <= |padded| && padded[|padded| - |digits|..] == digits
    ensures forall i :: |r| - 4 <= i < |r| ==> IsDigit(r[i])
    ensures |digits| <= |r| && r[|r| - |digits|..] == digits
  {
    forall i | |r| - 4 <= i < |r| ensures IsDigit(r[i]) {
      assert r[i] == padded[i - |head|];
    }
    assert r[|r| - |digits|..] == padded[|padded| - |digits|..];
  }

  /** Zero-padding a numeral keeps it a string of digits. */
  lemma {:induction false} PaddedNumeralIsDigits(digits: string, width: nat)
    requires AllDigits(digits)
    ensures AllDigits(PadStart(digits, width, '0'))
  {
    var padded := PadStart(digits, width, '0');
    forall i | 0 <= i < |padded| ensures IsDigit(padded[i]) {
      if i >= |padded| - |digits| {
        assert padded[i] == padded[|padded| - |digits|..][i - (|padded| - |digits|)];
      }
    }
  }

  // ---------------------------------------------------------------------------
  // The calculator
  // ---------------------------------------------------------------------------

  /** A constructed `GSTCalculator`. */
  datatype Calculator = Calculator(config: TaxConfig)

  /** The constructor: refuses a seller GSTIN that is not well formed. */
  function NewCalculator(config: TaxConfig): (r: Result<Calculator, GstError>)
    ensures r.Ok? <==> GstinShape(config.sellerGstin)
    ensures r.Ok? ==> r.value.config == config
    ensures r.Err? ==> r.error == SellerGstinInvalid
  {
    ValidateGstinIsShape(config.sellerGstin);
    if !ValidateGstin(config.sellerGstin) then Err(SellerGstinInvalid) else Ok(Calculator(config))
  }

  /** Step 1: the place of supply, how it was found, and its trace entry. */
  datatype Pos = Pos(code: string, source: PosSource, entry: string)

  function PlaceOfSupply(c: CustomerDetails): (r: Result<Pos, GstError>)
    ensures r.Ok? ==> IsTwoDigitCode(r.value.code)
    ensures c.isForeign ==> r.Ok? && r.value.code == ExportStateCode && r.value.source == ExportDefault
    ensures !c.isForeign && Present(c.gstin) ==>
      (r.Ok? <==> GstinShape(c.gstin.value))
      && (r.Ok? ==> r.value.code == c.gstin.value[..2] && r.value.source == FromGstin)
      && (r.Err? ==> r.error == InvalidGstinFormat(c.gstin.value))
    ensures !c.isForeign && !Present(c.gstin) ==>
      (r.Ok? <==> Present(c.stateCode) && IsKnownStateCode(c.stateCode.value))
      && (r.Ok? ==> r.value.code == c.stateCode.value && r.value.source == ManualState)
      && (!Present(c.stateCode) ==> r == Err(StateCodeRequired))
      && (Present(c.stateCode) && r.Err? ==> r.error == InvalidStateCode(c.stateCode.value))
  {
    if c.isForeign then
      Ok(Pos(ExportStateCode, ExportDefault, "Customer is foreign -> POS: 96 (Export)"))
    else if Present(c.gstin) then
      var code :- StateFromGstin(c.gstin.value);
      Ok(Pos(code, FromGstin, "POS derived from GSTIN (" + c.gstin.value + ") -> " + code))
    else if !Present(c.stateCode) then
      Err(StateCodeRequired)
    else if !IsKnownStateCode(c.stateCode.value) then
      Err(InvalidStateCode(c.stateCode.value))
    else
      KnownStateCodesAreTwoDigits(c.stateCode.value);
      Ok(Pos(c.stateCode.value, ManualState, "POS used manual state code -> " + c.stateCode.value))
  }

  /** Step 2: the transaction class, whether IGST is already fixed, the zero-rating
      multiplier and the trace entries of this step. */
  datatype Classification = Classification(kind: TransactionType, applyIgst: bool, multiplier: real, entries: seq<string>)

  const ExportLutEntry: string := "Export with LUT -> Zero Rated Tax"
  const SezLutEntry: string := "SEZ supply under LUT -> Zero Tax"
  const B2BEntry: string := "Customer has GSTIN -> B2B Transaction"
  const RcmEntry: string := "RCM Applied -> Tax liability shifted to recipient. Invoice tax = 0"

  function Classify(c: CustomerDetails): (r: Classification)
    ensures r.kind != DeemedExport
    ensures r.kind == Export <==> c.isForeign
    ensures r.kind == SezWithoutPayment <==> !c.isForeign && c.isSez && c.hasLut
    ensures r.kind == SezWithPayment <==> !c.isForeign && c.isSez && !c.hasLut
    ensures r.kind == B2B <==> !c.isForeign && !c.isSez && Present(c.gstin)
    ensures IsDomestic(r.kind) <==> !c.isForeign && !c.isSez
    ensures !IsDomestic(r.kind) ==> r.applyIgst
    ensures r.multiplier == (if c.hasLut && (c.isForeign || c.isSez) then 0.0 else 1.0)
    // an entry is logged for a zero-rating under a LUT and for a B2B class, and for nothing else
    ensures |r.entries| == (if r.multiplier == 0.0 || r.kind == B2B then 1 else 0)
    ensures r.multiplier == 0.0 ==> r.entries == [if c.isForeign then ExportLutEntry else SezLutEntry]
    ensures r.kind == B2B ==> r.entries == [B2BEntry]
  {
    if c.isForeign then
      Classification(Export, true, if c.hasLut then 0.0 else 1.0, if c.hasLut then [ExportLutEntry] else [])
    else if c.isSez then
      Classification(if c.hasLut then SezWithoutPayment else SezWithPayment, true,
                     if c.hasLut then 0.0 else 1.0, if c.hasLut then [SezLutEntry] else [])
    else if Present(c.gstin) then
      Classification(B2B, false, 1.0, [B2BEntry])
    else
      Classification(B2C, false, 1.0, [])
  }

  /** The classes whose IGST decision depends on the states (step 3). */
  predicate IsDomestic(t: TransactionType) {
    t == B2B || t == B2C
  }

  /** IGST applies to exports and SEZ supplies (always inter-state, section 7(5)(b) of the
      IGST Act, 2017) and to domestic supplies whose place of supply is another state. */
  predicate IgstApplies(c: CustomerDetails, pos: string, seller: string) {
    c.isForeign || c.isSez || pos != seller
  }

  /** No tax is charged: reverse charge, or an export or SEZ supply under a Letter of Undertaking. */
  predicate ZeroRated(c: CustomerDetails, isRcm: bool) {
    isRcm || (c.hasLut && (c.isForeign || c.isSez))
  }

  /** The trace entry of step 3: it names both codes and says "Inter-state" exactly when they differ. */
  function RouteEntry(seller: string, pos: string): (e: string)
    ensures |e| > |seller| + |pos| + 30
    ensures e[..6] == "Inter-" <==> pos != seller
    ensures e[..6] in {"Inter-", "Intra-"}
    ensures var n := |e| - |pos| - 1; n >= 0 && e[n..n + |pos|] == pos && e[|e| - 1] == ')'
  {
    var head := if pos != seller then "Inter-state supply: Seller(" else "Intra-state supply: Seller(";
    var relation := if pos != seller then ") != Buyer(" else ") == Buyer(";
    var e := head + seller + relation + pos + ")";
    assert head[..6] == (if pos != seller then "Inter-" else "Intra-");
    assert e[..6] == head[..6] by { assert e == head + (seller + relation + pos + ")"); }
    assert e[|e| - |pos| - 1..|e| - 1] == pos by { assert e == (head + seller + relation) + pos + ")"; }
    e
  }

  /** The line total `unitPrice * quantity - (discount || 0)`. */
  function LineTotal(item: LineItem): real {
    item.unitPrice * item.quantity - item.discount.GetOr(0.0)
  }

  /** The running sum of the line totals, first line first. */
  function SumLines(items: seq<LineItem>): real {
    if |items| == 0 then 0.0 else SumLines(items[..|items| - 1]) + LineTotal(items[|items| - 1])
  }

  /** The running sum does not depend on how the lines are grouped: the sum of two lists of
      lines is the sum of their sums. */
  lemma {:induction false} SumLinesConcat(a: seq<LineItem>, b: seq<LineItem>)
    ensures SumLines(a + b) == SumLines(a) + SumLines(b)
    decreases |b|
  {
    if |b| == 0 {
      assert a + b == a;
    } else {
      var b' := b[..|b| - 1];
      assert (a + b)[..|a + b| - 1] == a + b';
      assert (a + b)[|a + b| - 1] == b[|b| - 1];
      SumLinesConcat(a, b');
    }
  }

  /** Steps 5 to 7 on the summed line totals: the tax components and the rounded totals. */
  datatype Amounts = Amounts(taxable: real, cgst: real, sgst: real, igst: real, totalTax: real, total: int)

  function ComputeAmounts(totalTaxable: real, applyIgst: bool, effectiveRate: real): (a: Amounts)
    ensures a.taxable == Round2(totalTaxable)
    ensures applyIgst ==> a.cgst == 0.0 && a.sgst == 0.0 && a.igst == Round2(totalTaxable * effectiveRate)
    ensures !applyIgst ==> a.igst == 0.0 && a.cgst == Round2(totalTaxable * effectiveRate / 2.0)
    ensures a.cgst == a.sgst
    ensures effectiveRate == 0.0 ==> a.cgst == 0.0 && a.igst == 0.0 && a.totalTax == 0.0
    ensures IsCents(a.cgst) && IsCents(a.igst) && IsCents(a.totalTax)
    ensures a.totalTax == a.cgst + a.sgst + a.igst
    ensures a.total == Round0(a.taxable + a.totalTax)
  {
    var igst := if applyIgst then totalTaxable * effectiveRate else 0.0;
    var cgst := if applyIgst then 0.0 else (totalTaxable * effectiveRate) / 2.0;
    var sgst := if applyIgst then 0.0 else (totalTaxable * effectiveRate) / 2.0;
    var finalTaxable := Round2(totalTaxable);
    var finalCgst := Round2(cgst);
    var finalSgst := Round2(sgst);
    var finalIgst := Round2(igst);
    Round2OfZero();
    CentsSumIsExact(finalCgst, finalSgst, finalIgst);
    var totalTax := Round2(finalCgst + finalSgst + finalIgst);
    Amounts(finalTaxable, finalCgst, finalSgst, finalIgst, totalTax, Round0(finalTaxable + totalTax))
  }

  /** The logic trace: the place-of-supply entry, the classification entries, the
      route entry of a domestic supply and the reverse-charge entry, in that order. */
  function Trace(seller: string, pos: Pos, cls: Classification, isRcm: bool): (trace: seq<string>)
    ensures |trace| == 1 + |cls.entries| + (if IsDomestic(cls.kind) then 1 else 0) + (if isRcm then 1 else 0)
    ensures trace[0] == pos.entry
    ensures trace[1..1 + |cls.entries|] == cls.entries
    ensures IsDomestic(cls.kind) ==> trace[1 + |cls.entries|] == RouteEntry(seller, pos.code)
    ensures isRcm ==> trace[|trace| - 1] == RcmEntry
  {
    [pos.entry] + cls.entries
    + (if IsDomestic(cls.kind) then [RouteEntry(seller, pos.code)] else [])
    + (if isRcm then [RcmEntry] else [])
  }

  /** Step 3: a domestic supply is inter-state when the place of supply is not the seller's
      state; the other classes carry their own decision. */
  function ApplyIgst(customer: CustomerDetails, posCode: string, seller: string): (b: bool)
    ensures b <==> IgstApplies(customer, posCode, seller)
  {
    var cls := Classify(customer);
    if IsDomestic(cls.kind) then posCode != seller else cls.applyIgst
  }

  /** Step 4: the rate times the multiplier, which reverse charge sets to zero. */
  function EffectiveRate(customer: CustomerDetails, isRcm: bool): (rate: real)
    ensures rate == if ZeroRated(customer, isRcm) then 0.0 else Rate
  {
    Rate * (if isRcm then 0.0 else Classify(customer).multiplier)
  }

  /** The amounts of a result, as step 7 rounds them. */
  function AmountsOf(t: TaxResult): Amounts {
    Amounts(t.taxableAmount, t.cgstAmount, t.sgstAmount, t.igstAmount, t.totalTax, t.totalAmount)
  }

  /** Steps 2 to 8 once the place of supply is known. */
  function Determine(seller: string, customer: CustomerDetails, pos: Pos, items: seq<LineItem>, isRcm: bool,
                     suggestion: string): (t: TaxResult)
    ensures t.transactionType == Classify(customer).kind
    ensures t.placeOfSupply == pos.code + " - " + StateName(pos.code)
    ensures t.meta.posSource == pos.source
    ensures t.meta.rateApplied == (if ZeroRated(customer, isRcm) then 0.0 else Rate)
    ensures AmountsOf(t) == ComputeAmounts(SumLines(items), IgstApplies(customer, pos.code, seller), t.meta.rateApplied)
    ensures t.sacCode == SacCodeSaas && t.isRcm == isRcm && t.invoiceNumberSuggestion == suggestion
    ensures t.meta.logicTrace == Trace(seller, pos, Classify(customer), isRcm)
  {
    var cls := Classify(customer);
    var effectiveRate := EffectiveRate(customer, isRcm);
    var a := ComputeAmounts(SumLines(items), ApplyIgst(customer, pos.code, seller), effectiveRate);
    TaxResult(
      cls.kind,
      pos.code + " - " + StateName(pos.code),
      isRcm,
      a.taxable, a.cgst, a.sgst, a.igst, a.totalTax, a.total,
      suggestion,
      SacCodeSaas,
      Meta(effectiveRate, pos.source, Trace(seller, pos, cls, isRcm)))
  }

  /** The tax of a determined result: IGST alone on an inter-state supply, an equal CGST and SGST
      pair on an intra-state one, each at the full or half rate on the summed lines and rounded to
      paise; nothing when zero-rated; the total rounded to whole rupees. */
  lemma {:induction false} DeterminedTaxes(seller: string, customer: CustomerDetails, pos: Pos, items: seq<LineItem>, isRcm: bool,
                        suggestion: string)
    ensures var t := Determine(seller, customer, pos, items, isRcm, suggestion);
      && t.cgstAmount == t.sgstAmount
      && (IgstApplies(customer, pos.code, seller) ==>
            t.cgstAmount == 0.0 && (!ZeroRated(customer, isRcm) ==> t.igstAmount == Round2(SumLines(items) * Rate)))
      && (!IgstApplies(customer, pos.code, seller) ==>
            t.igstAmount == 0.0 && (!ZeroRated(customer, isRcm) ==> t.cgstAmount == Round2(SumLines(items) * Rate / 2.0)))
      && (ZeroRated(customer, isRcm) ==> t.cgstAmount == 0.0 && t.igstAmount == 0.0 && t.totalTax == 0.0)
      && t.taxableAmount == Round2(SumLines(items))
      && t.totalTax == t.cgstAmount + t.sgstAmount + t.igstAmount
      && t.totalAmount == Round0(t.taxableAmount + t.totalTax)
      && IsCents(t.cgstAmount) && IsCents(t.igstAmount) && IsCents(t.totalTax)
  {
    var t := Determine(seller, customer, pos, items, isRcm, suggestion);
    var zero := ZeroRated(customer, isRcm);
    ChargedAmounts(SumLines(items), IgstApplies(customer, pos.code, seller), zero, AmountsOf(t));
  }

  /** The logic trace of a determined result, in evaluation order: the place-of-supply entry,
      the LUT or B2B entry, the intra/inter-state entry of a domestic supply, and the
      reverse-charge entry last. */
  lemma {:induction false} DeterminedTrace(seller: string, customer: CustomerDetails, pos: Pos, items: seq<LineItem>,
                                          isRcm: bool, suggestion: string)
    ensures var tr := Determine(seller, customer, pos, items, isRcm, suggestion).meta.logicTrace;
      var kind := Classify(customer).kind;
      var logged := if ZeroRated(customer, false) || kind == B2B then 1 else 0;
      && |tr| == 1 + logged + (if IsDomestic(kind) then 1 else 0) + (if isRcm then 1 else 0)
      && tr[0] == pos.entry
      && (ZeroRated(customer, false) ==> tr[1] == if customer.isForeign then ExportLutEntry else SezLutEntry)
      && (kind == B2B ==> tr[1] == B2BEntry)
      && (IsDomestic(kind) ==> tr[1 + logged] == RouteEntry(seller, pos.code))
      && (isRcm ==> tr[|tr| - 1] == RcmEntry)
  {
  }

  /** The amounts at the full rate, or at the zero rate, of a taxable sum. */
  lemma {:induction false} ChargedAmounts(s: real, igst: bool, zero: bool, a: Amounts)
    requires a == ComputeAmounts(s, igst, if zero then 0.0 else Rate)
    ensures a.cgst == a.sgst
    ensures igst ==> a.cgst == 0.0 && (!zero ==> a.igst == Round2(s * Rate))
    ensures !igst ==> a.igst == 0.0 && (!zero ==> a.cgst == Round2(s * Rate / 2.0))
    ensures zero ==> a.cgst == 0.0 && a.igst == 0.0 && a.totalTax == 0.0
  {
  }

  /** `calculate`. `year` and `sequence` stand for the clock year and the random
      placeholder sequence of the invoice-number suggestion. */
  function Calculate(engine: Calculator, customer: CustomerDetails, items: seq<LineItem>, isRcm: bool,
                     year: int, sequence: nat): (r: Result<TaxResult, GstError>)
    // failures: exactly the place-of-supply failures
    ensures r.Err? <==> PlaceOfSupply(customer).Err?
    ensures r.Err? ==> r.error == PlaceOfSupply(customer).error
    // classification
    ensures r.Ok? ==> r.value.transactionType != DeemedExport
    ensures r.Ok? ==> (r.value.transactionType == Export <==> customer.isForeign)
    ensures r.Ok? ==> (r.value.transactionType == SezWithoutPayment <==> !customer.isForeign && customer.isSez && customer.hasLut)
    ensures r.Ok? ==> (r.value.transactionType == SezWithPayment <==> !customer.isForeign && customer.isSez && !customer.hasLut)
    ensures r.Ok? ==> (r.value.transactionType == B2B <==> !customer.isForeign && !customer.isSez && Present(customer.gstin))
    // place of supply
    ensures r.Ok? ==> (r.value.meta.posSource == ExportDefault <==> customer.isForeign)
    ensures r.Ok? ==> (r.value.meta.posSource == FromGstin <==> !customer.isForeign && Present(customer.gstin))
    ensures r.Ok? ==> var code := PlaceOfSupply(customer).value.code;
      r.value.placeOfSupply == code + " - " + StateName(code)
    // everything else is decided by the later steps
    ensures r.Ok? ==> r.value == Determine(engine.config.sellerStateCode, customer, PlaceOfSupply(customer).value,
                                           items, isRcm, FyInvoiceNumber(year, sequence))
  {
    var pos :- PlaceOfSupply(customer);
    Ok(Determine(engine.config.sellerStateCode, customer, pos, items, isRcm, FyInvoiceNumber(year, sequence)))
  }
}

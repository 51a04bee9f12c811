/** The request validators: what each schema accepts, the issues it reports,
    and the value it hands on. A zod string or number schema runs all of its
    checks and reports every check that fails, in order; a transform runs only
    on an input with no issue; an object schema reports the issues of all its
    fields, in field order. */
module Schemas {
  import opened Results
  import opened Text
  import Patterns
  import Gst

  /** A validation issue. A length issue carries the schema's own message where it gives
      one, and `None` where the library's default message is used. */
  datatype Issue =
    | TooShort(minLength: nat, note: Option<string>)
    | TooLong(maxLength: nat, note: Option<string>)
    | NoMatch(message: string)
    | NotInteger
    | NotPositive
    | TooBig(maximum: int)
    | TooSmall(minimum: int)
    | NotLiteral(expected: string)
    | At(field: string, inner: Issue)

  /** One check of a schema: whether the input passes it, and the issue reported if not. */
  datatype Check = Check(passes: bool, issue: Issue)

  /** The issues of the failing checks, in the order of the checks. */
  function Failing(checks: seq<Check>): (issues: seq<Issue>)
    ensures |issues| <= |checks|
    ensures |issues| == 0 <==> forall i :: 0 <= i < |checks| ==> checks[i].passes
    ensures forall i :: 0 <= i < |checks| && !checks[i].passes ==> checks[i].issue in issues
    ensures forall x :: x in issues ==> exists i :: 0 <= i < |checks| && !checks[i].passes && checks[i].issue == x
    decreases |checks|
  {
    if |checks| == 0 then []
    else
      var rest := Failing(checks[1..]);
      assert forall i :: 1 <= i < |checks| ==> checks[i] == checks[1..][i - 1];
      (if checks[0].passes then [] else [checks[0].issue]) + rest
  }

  /** The issues keep the order and the multiplicity of the checks: the issues of consecutive
      groups of checks follow one another, and (`FailingOfOne`) one check contributes its issue
      exactly when it fails. */
  lemma {:induction false} FailingInOrder(a: seq<Check>, b: seq<Check>)
    ensures Failing(a + b) == Failing(a) + Failing(b)
    decreases |a|
  {
    if |a| == 0 {
      assert a + b == b;
    } else {
      var rest := a[1..];
      var head: seq<Issue> := if a[0].passes then [] else [a[0].issue];
      calc {
        Failing(a + b);
        { assert a + b == [a[0]] + (rest + b); FailingCons(a[0], rest + b); }
        head + Failing(rest + b);
        { FailingInOrder(rest, b); }
        head + (Failing(rest) + Failing(b));
        { IssuesAssoc(head, Failing(rest), Failing(b)); }
        (head + Failing(rest)) + Failing(b);
        { assert a == [a[0]] + rest; FailingCons(a[0], rest); }
        Failing(a) + Failing(b);
      }
    }
  }

  /** A single check contributes its issue exactly when it fails. */
  lemma {:induction false} FailingOfOne(c: Check)
    ensures Failing([c]) == if c.passes then [] else [c.issue]
  {
    FailingCons(c, []);
    assert [c] + [] == [c];
  }

  lemma {:induction false} FailingCons(c: Check, rest: seq<Check>)
    ensures Failing([c] + rest) == (if c.passes then [] else [c.issue]) + Failing(rest)
  {
    assert ([c] + rest)[1..] == rest;
  }

  lemma {:induction false} IssuesAssoc(x: seq<Issue>, y: seq<Issue>, z: seq<Issue>)
    ensures x + (y + z) == (x + y) + z
  {
  }

  /** An issue that no other check reports is in the list exactly when its own check fails. */
  lemma {:induction false} ReportedIffFails(checks: seq<Check>, k: nat)
    requires k < |checks|
    requires forall j :: 0 <= j < |checks| && j != k ==> checks[j].issue != checks[k].issue
    ensures checks[k].issue in Failing(checks) <==> !checks[k].passes
  {
    if checks[k].issue in Failing(checks) {
      var i :| 0 <= i < |checks| && !checks[i].passes && checks[i].issue == checks[k].issue;
      assert i == k;
    }
  }

  /** The result of a schema: the parsed value when no check fails, every issue otherwise. */
  function Outcome<T>(issues: seq<Issue>, value: T): (r: Result<T, seq<Issue>>)
    ensures r.Ok? <==> |issues| == 0
    ensures r.Ok? ==> r.value == value
    ensures r.Err? ==> r.error == issues
  {
    if |issues| == 0 then Ok(value) else Err(issues)
  }

  /** `z.number().int()`: a finite number without a fractional part. */
  predicate IsInteger(x: real) {
    x.Floor as real == x
  }

  // ---------------------------------------------------------------------------
  // slugSchema
  // ---------------------------------------------------------------------------

  /** `[a-z0-9-]` */
  const SlugClass: Patterns.CharClass := [Patterns.Range('a', 'z'), Patterns.Range('0', '9'), Patterns.Range('-', '-')]

  predicate SlugChar(c: char) {
    IsLower(c) || IsDigit(c) || c == '-'
  }

  lemma {:induction false} SlugClassMeaning()
    ensures forall c :: Patterns.InClass(c, SlugClass) <==> SlugChar(c)
  {
    forall c ensures Patterns.InClass(c, SlugClass) <==> SlugChar(c) {
      if IsLower(c) { assert SlugClass[0].lo <= c <= SlugClass[0].hi; }
      if IsDigit(c) { assert SlugClass[1].lo <= c <= SlugClass[1].hi; }
      if c == '-' { assert SlugClass[2].lo <= c <= SlugClass[2].hi; }
    }
  }

  function SlugChecks(s: string): seq<Check> {
    [ Check(JsLength(s) >= 3, TooShort(3, Some("Slug must be at least 3 characters"))),
      Check(JsLength(s) <= 50, TooLong(50, Some("Slug must be less than 50 characters"))),
      Check(|s| > 0 && Patterns.AllIn(s, SlugClass),
            NoMatch("Slug can only contain lowercase letters, numbers, and hyphens")) ]
  }

  /** `slugSchema`: 3 to 50 characters of `[a-z0-9-]`; the value is lower-cased afterwards,
      which leaves every accepted slug as it is. The length checks count UTF-16 code units;
      an accepted slug is ASCII, so there they count its characters. */
  function ParseSlug(s: string): (r: Result<string, seq<Issue>>)
    ensures r.Ok? <==> 3 <= |s| <= 50 && forall i :: 0 <= i < |s| ==> SlugChar(s[i])
    ensures r.Ok? ==> r.value == s
    ensures r.Err? ==> 1 <= |r.error| <= 3
    ensures r.Err? ==> (JsLength(s) < 3 <==> TooShort(3, Some("Slug must be at least 3 characters")) in r.error)
  {
    SlugClassMeaning();
    var checks := SlugChecks(s);
    var issues := Failing(checks);
    assert |issues| == 0 <==> checks[0].passes && checks[1].passes && checks[2].passes;
    assert |issues| == 0 ==> ToLower(s) == s by {
      if |issues| == 0 {
        assert checks[2].passes;
        ToLowerFixesLowerCase(s);
      }
    }
    Outcome(issues, ToLower(s))
  }

  // ---------------------------------------------------------------------------
  // phoneSchema and gstinSchema: a pattern, optional, or the empty string
  // ---------------------------------------------------------------------------

  /** `^\+91[6-9]\d{9}$` */
  const PhonePattern: seq<Patterns.CharClass> :=
    Patterns.Literals("+91") + [[Patterns.Range('6', '9')]] + Patterns.Repeat(Patterns.Digit, 9)

  /** An Indian mobile number in international form: "+91", a digit from 6 to 9, nine more digits. */
  predicate IndianMobile(s: string) {
    && |s| == 13
    && s[..3] == "+91"
    && '6' <= s[3] <= '9'
    && forall i :: 4 <= i < 13 ==> IsDigit(s[i])
  }

  lemma {:induction false} PhonePatternMeaning(s: string)
    ensures Patterns.MatchesFixed(s, PhonePattern) <==> IndianMobile(s)
  {
    var p := PhonePattern;
    assert |p| == 13;
    assert forall i :: 0 <= i < 3 ==> p[i] == Patterns.Literal("+91"[i]);
    assert p[3] == [Patterns.Range('6', '9')];
    assert forall i :: 4 <= i < 13 ==> p[i] == Patterns.Digit;
    if |s| == 13 {
      forall i | 0 <= i < 13
        ensures Patterns.InClass(s[i], p[i]) <==>
          (if i < 3 then s[i] == "+91"[i] else if i == 3 then '6' <= s[i] <= '9' else IsDigit(s[i]))
      {
        Patterns.ClassMeanings(s[i]);
        if i < 3 && Patterns.InClass(s[i], p[i]) {
          assert p[i][0].lo <= s[i] <= p[i][0].hi;
        }
        if i == 3 && '6' <= s[i] <= '9' {
          assert p[i][0].lo <= s[i] <= p[i][0].hi;
        }
      }
      if IndianMobile(s) {
        assert forall i :: 0 <= i < 3 ==> s[i] == s[..3][i];
      }
      if Patterns.MatchesFixed(s, p) {
        assert s[..3] == "+91";
      }
    }
  }

  /** `z.string().regex(pattern, message).optional().or(z.literal(""))`: an absent value passes
      through, the empty string matches the second alternative, and any other string must match
      the pattern; a mismatch reports the first alternative's issue. */
  function OptionalPattern(input: Option<string>, pattern: seq<Patterns.CharClass>, message: string)
    : (r: Result<Option<string>, seq<Issue>>)
    ensures r.Ok? <==> input.None? || input.value == "" || Patterns.MatchesFixed(input.value, pattern)
    ensures r.Ok? ==> r.value == input
    ensures r.Err? ==> r.error == [NoMatch(message)]
  {
    match input
    case None => Ok(None)
    case Some(s) =>
      if Patterns.MatchesFixed(s, pattern) || s == "" then Ok(input) else Err([NoMatch(message)])
  }

  /** `phoneSchema`. */
  function ParsePhone(input: Option<string>): (r: Result<Option<string>, seq<Issue>>)
    ensures r.Ok? <==> input.None? || input.value == "" || IndianMobile(input.value)
    ensures r.Ok? ==> r.value == input
  {
    assert input.Some? ==> (Patterns.MatchesFixed(input.value, PhonePattern) <==> IndianMobile(input.value)) by {
      if input.Some? { PhonePatternMeaning(input.value); }
    }
    OptionalPattern(input, PhonePattern, "Invalid Indian phone number (format: +91XXXXXXXXXX)")
  }

  /** `gstinSchema`: the same fifteen-character shape the tax engine checks, or nothing. */
  function ParseGstin(input: Option<string>): (r: Result<Option<string>, seq<Issue>>)
    ensures r.Ok? <==> input.None? || input.value == "" || Gst.GstinShape(input.value)
    ensures r.Ok? <==> input.None? || input.value == "" || Gst.ValidateGstin(input.value)
    ensures r.Ok? ==> r.value == input
  {
    assert input.Some? ==> (Gst.ValidateGstin(input.value) <==> Gst.GstinShape(input.value)) by {
      if input.Some? { Gst.ValidateGstinIsShape(input.value); }
    }
    OptionalPattern(input, Gst.GstinPattern, "Invalid GSTIN format")
  }

  // ---------------------------------------------------------------------------
  // passwordSchema
  // ---------------------------------------------------------------------------

  const PasswordTooShort := TooShort(8, Some("Password must be at least 8 characters"))
  const PasswordTooLong := TooLong(100, Some("Password too long"))
  const NoLowercase := NoMatch("Password must contain at least one lowercase letter")
  const NoUppercase := NoMatch("Password must contain at least one uppercase letter")
  const NoNumber := NoMatch("Password must contain at least one number")

  function PasswordChecks(s: string): seq<Check> {
    [ Check(JsLength(s) >= 8, PasswordTooShort),
      Check(JsLength(s) <= 100, PasswordTooLong),
      Check(Patterns.ContainsSome(s, Patterns.Lower), NoLowercase),
      Check(Patterns.ContainsSome(s, Patterns.Upper), NoUppercase),
      Check(Patterns.ContainsSome(s, Patterns.Digit), NoNumber) ]
  }

  /** A password the schema accepts: a JavaScript length of 8 to 100 UTF-16 code units, with a
      lower-case letter, an upper-case letter and a digit among the characters. */
  predicate StrongPassword(s: string) {
    && 8 <= JsLength(s) <= 100
    && (exists i :: 0 <= i < |s| && IsLower(s[i]))
    && (exists i :: 0 <= i < |s| && IsUpper(s[i]))
    && (exists i :: 0 <= i < |s| && IsDigit(s[i]))
  }

  lemma {:induction false} ContainsClassMeaning(s: string)
    ensures Patterns.ContainsSome(s, Patterns.Lower) <==> exists i :: 0 <= i < |s| && IsLower(s[i])
    ensures Patterns.ContainsSome(s, Patterns.Upper) <==> exists i :: 0 <= i < |s| && IsUpper(s[i])
    ensures Patterns.ContainsSome(s, Patterns.Digit) <==> exists i :: 0 <= i < |s| && IsDigit(s[i])
  {
    forall i | 0 <= i < |s|
      ensures (Patterns.InClass(s[i], Patterns.Lower) <==> IsLower(s[i]))
      && (Patterns.InClass(s[i], Patterns.Upper) <==> IsUpper(s[i]))
      && (Patterns.InClass(s[i], Patterns.Digit) <==> IsDigit(s[i]))
    {
      Patterns.ClassMeanings(s[i]);
    }
  }

  /** `passwordSchema`. */
  function ParsePassword(s: string): (r: Result<string, seq<Issue>>)
    ensures r.Ok? <==> StrongPassword(s)
    ensures r.Ok? ==> r.value == s
    ensures r.Err? ==> (JsLength(s) < 8 <==> PasswordTooShort in r.error)
    ensures r.Err? ==> ((forall i :: 0 <= i < |s| ==> !IsDigit(s[i])) <==> NoNumber in r.error)
  {
    PasswordIssueFacts(s);
    Outcome(Failing(PasswordChecks(s)), s)
  }

  /** No issue exactly for a strong password; the length issue exactly for a short one,
      the digit issue exactly for one without a digit. */
  lemma {:induction false} PasswordIssueFacts(s: string)
    ensures var issues := Failing(PasswordChecks(s));
      && (|issues| == 0 <==> StrongPassword(s))
      && (PasswordTooShort in issues <==> JsLength(s) < 8)
      && (NoNumber in issues <==> forall i :: 0 <= i < |s| ==> !IsDigit(s[i]))
  {
    PasswordAccepted(s);
    PasswordChecksDistinct(s);
    ReportedIffFails(PasswordChecks(s), 0);
    ReportedIffFails(PasswordChecks(s), 4);
    ContainsClassMeaning(s);
  }

  lemma {:induction false} PasswordAccepted(s: string)
    ensures |Failing(PasswordChecks(s))| == 0 <==> StrongPassword(s)
  {
    ContainsClassMeaning(s);
    var checks := PasswordChecks(s);
    assert |Failing(checks)| == 0 <==> checks[0].passes && checks[1].passes && checks[2].passes
                                       && checks[3].passes && checks[4].passes;
  }

  /** The length issue and the digit issue are reported by no other password check. */
  lemma {:induction false} PasswordChecksDistinct(s: string)
    ensures forall j :: 0 <= j < |PasswordChecks(s)| && j != 0 ==> PasswordChecks(s)[j].issue != PasswordTooShort
    ensures forall j :: 0 <= j < |PasswordChecks(s)| && j != 4 ==> PasswordChecks(s)[j].issue != NoNumber
  {
    var checks := PasswordChecks(s);
    assert NoNumber.message[35] == 'n' && NoLowercase.message[35] == 'l' && NoUppercase.message[35] == 'u';
    forall j | 0 <= j < |checks| && j != 4 ensures checks[j].issue != NoNumber {
      if j == 0 {} else if j == 1 {} else if j == 2 {} else {}
    }
  }

  /** A password of "Aa1" and three emoji outside the Basic Multilingual Plane has six
      characters but a JavaScript length of nine, so the schema accepts it. */
  lemma {:induction false} AstralPasswordAccepted()
    ensures var s := "Aa1" + seq(3, _ => '\U{1F600}');
      |s| == 6 && JsLength(s) == 9 && ParsePassword(s) == Ok(s)
  {
    var emoji := seq(3, _ => '\U{1F600}');
    var s := "Aa1" + emoji;
    JsLengthConcat("Aa1", emoji);
    assert JsLength("Aa1") == 3;
    assert JsLength(emoji) == 6;
    assert IsLower(s[1]) && IsUpper(s[0]) && IsDigit(s[2]);
    assert StrongPassword(s);
  }

  /** The password issues found by one pass over the characters. */
  method PasswordIssues(s: string) returns (issues: seq<Issue>)
    ensures issues == Failing(PasswordChecks(s))
  {
    var lower, upper, digit := false, false, false;
    var i := 0;
    while i < |s|
      invariant 0 <= i <= |s|
      invariant lower <==> exists j :: 0 <= j < i && IsLower(s[j])
      invariant upper <==> exists j :: 0 <= j < i && IsUpper(s[j])
      invariant digit <==> exists j :: 0 <= j < i && IsDigit(s[j])
    {
      lower := lower || IsLower(s[i]);
      upper := upper || IsUpper(s[i]);
      digit := digit || IsDigit(s[i]);
      i := i + 1;
    }
    ContainsClassMeaning(s);
    var checks := [ Check(JsLength(s) >= 8, PasswordTooShort), Check(JsLength(s) <= 100, PasswordTooLong),
                    Check(lower, NoLowercase), Check(upper, NoUppercase), Check(digit, NoNumber) ];
    assert checks == PasswordChecks(s);
    issues := Failing(checks);
  }

  // ---------------------------------------------------------------------------
  // createCouponSchema.code
  // ---------------------------------------------------------------------------

  function CouponChecks(code: string): seq<Check> {
    [ Check(JsLength(code) >= 3, TooShort(3, None)),
      Check(JsLength(code) <= 20, TooLong(20, None)),
      Check(|code| > 0 && Patterns.AllIn(code, Patterns.DigitOrUpper),
            NoMatch("Coupon code must be uppercase letters and numbers only")) ]
  }

  /** The coupon code of `createCouponSchema`: 3 to 20 characters of `[A-Z0-9]`; the value is
      upper-cased afterwards, which leaves every accepted code as it is. An accepted code is
      ASCII, so its UTF-16 length is its number of characters. */
  function ParseCouponCode(code: string): (r: Result<string, seq<Issue>>)
    ensures r.Ok? <==> 3 <= |code| <= 20 && forall i :: 0 <= i < |code| ==> IsUpper(code[i]) || IsDigit(code[i])
    ensures r.Ok? ==> r.value == code
  {
    var checks := CouponChecks(code);
    var issues := Failing(checks);
    assert |issues| == 0 <==> checks[0].passes && checks[1].passes && checks[2].passes;
    assert (forall i :: 0 <= i < |code| ==> IsUpper(code[i]) || IsDigit(code[i]))
           <==> Patterns.AllIn(code, Patterns.DigitOrUpper) by {
      forall i | 0 <= i < |code| { Patterns.ClassMeanings(code[i]); }
    }
    assert |issues| == 0 ==> ToUpper(code) == code by {
      if |issues| == 0 {
        assert checks[2].passes;
        ToUpperFixesUpperCase(code);
      }
    }
    Outcome(issues, ToUpper(code))
  }

  // ---------------------------------------------------------------------------
  // createOrderSchema
  // ---------------------------------------------------------------------------

  /** An order request; `amount` is in paise. */
  datatype OrderRequest = OrderRequest(amount: real, currency: string, receipt: Option<string>,
                                       notes: Option<map<string, string>>)

  /** The largest order amount, in paise (one lakh rupees). */
  const MaxOrderAmount: int := 10000000

  function OrderChecks(o: OrderRequest): seq<Check> {
    [ Check(IsInteger(o.amount), At("amount", NotInteger)),
      Check(o.amount > 0.0, At("amount", NotPositive)),
      Check(o.amount <= MaxOrderAmount as real, At("amount", TooBig(MaxOrderAmount))),
      Check(o.currency == "INR", At("currency", NotLiteral("INR"))),
      Check(o.receipt.None? || JsLength(o.receipt.value) <= 40, At("receipt", TooLong(40, None))) ]
  }

  /** `createOrderSchema`: a whole, positive amount of at most 10,000,000 paise, the currency
      exactly "INR", and a receipt of at most 40 UTF-16 code units if one is given. */
  function ParseOrder(o: OrderRequest): (r: Result<OrderRequest, seq<Issue>>)
    ensures r.Ok? <==> && IsInteger(o.amount) && 0.0 < o.amount <= MaxOrderAmount as real
                       && o.currency == "INR"
                       && (o.receipt.None? || JsLength(o.receipt.value) <= 40)
    ensures r.Ok? ==> r.value == o && 1 <= r.value.amount.Floor <= MaxOrderAmount
    ensures r.Err? ==> forall x :: x in r.error ==> x.At?
  {
    assert IsInteger(o.amount) && 0.0 < o.amount <= MaxOrderAmount as real
           ==> 0 < o.amount.Floor <= MaxOrderAmount && o.amount == o.amount.Floor as real;
    var checks := OrderChecks(o);
    var issues := Failing(checks);
    assert |issues| == 0 <==> checks[0].passes && checks[1].passes && checks[2].passes
                              && checks[3].passes && checks[4].passes;
    Outcome(issues, o)
  }

  /** A receipt of 21 emoji outside the Basic Multilingual Plane has a JavaScript length of 42,
      so the schema rejects it with the receipt's length issue alone. */
  lemma {:induction false} AstralReceiptRejected(o: OrderRequest)
    requires IsInteger(o.amount) && 0.0 < o.amount <= MaxOrderAmount as real && o.currency == "INR"
    requires o.receipt == Some(seq(21, _ => '\U{1F600}'))
    ensures JsLength(o.receipt.value) == 42
    ensures ParseOrder(o) == Err([At("receipt", TooLong(40, None))])
  {
    var checks := OrderChecks(o);
    assert !checks[4].passes;
    assert checks == checks[..4] + [checks[4]];
    FailingInOrder(checks[..4], [checks[4]]);
    FailingOfOne(checks[4]);
    assert Failing(checks[..4]) == [];
    assert Failing(checks) == [At("receipt", TooLong(40, None))];
    assert ParseOrder(o) == Outcome(Failing(checks), o);
  }

  // ---------------------------------------------------------------------------
  // adminUserSearchSchema
  // ---------------------------------------------------------------------------

  /** The query of the admin user search, after coercion to numbers. */
  datatype SearchQuery = SearchQuery(search: Option<string>, page: Option<real>, limit: Option<real>)

  datatype Search = Search(search: Option<string>, page: int, limit: int)

  const DefaultPage := 1
  const DefaultLimit := 50
  const MaxLimit := 100

  /** A missing number takes the default before its checks run. */
  function WithDefault(x: Option<real>, default: int): real {
    if x.Some? then x.value else default as real
  }

  function SearchChecks(q: SearchQuery): seq<Check> {
    var page := WithDefault(q.page, DefaultPage);
    var limit := WithDefault(q.limit, DefaultLimit);
    [ Check(q.search.None? || JsLength(q.search.value) <= 100, At("search", TooLong(100, None))),
      Check(IsInteger(page), At("page", NotInteger)),
      Check(page > 0.0, At("page", NotPositive)),
      Check(IsInteger(limit), At("limit", NotInteger)),
      Check(limit >= 1.0, At("limit", TooSmall(1))),
      Check(limit <= MaxLimit as real, At("limit", TooBig(MaxLimit))) ]
  }

  /** `adminUserSearchSchema`: the page is a positive whole number, 1 when absent; the limit a
      whole number from 1 to 100, 50 when absent; the search text at most 100 UTF-16 code units. */
  function ParseSearch(q: SearchQuery): (r: Result<Search, seq<Issue>>)
    ensures r.Ok? <==> && (q.search.None? || JsLength(q.search.value) <= 100)
                       && (q.page.None? || (IsInteger(q.page.value) && q.page.value > 0.0))
                       && (q.limit.None? || (IsInteger(q.limit.value) && 1.0 <= q.limit.value <= 100.0))
    ensures r.Ok? ==> && r.value.page >= 1 && 1 <= r.value.limit <= MaxLimit
                      && r.value.search == q.search
                      && (q.page.None? ==> r.value.page == DefaultPage)
                      && (q.page.Some? ==> r.value.page as real == q.page.value)
                      && (q.limit.None? ==> r.value.limit == DefaultLimit)
                      && (q.limit.Some? ==> r.value.limit as real == q.limit.value)
  {
    var page := WithDefault(q.page, DefaultPage);
    var limit := WithDefault(q.limit, DefaultLimit);
    var checks := SearchChecks(q);
    var issues := Failing(checks);
    assert |issues| == 0 <==> checks[0].passes && checks[1].passes && checks[2].passes
                              && checks[3].passes && checks[4].passes && checks[5].passes;
    Outcome(issues, Search(q.search, page.Floor, limit.Floor))
  }
}

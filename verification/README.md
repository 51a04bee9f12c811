# GST invoice engine: a Dafny model

This project models the computational core of a Next.js SaaS starter that sells licences in
India and issues GST tax invoices. It covers:

- **The GST engine** (`GSTCalculator.calculate` and its helpers). The engine first decides
  the place of supply: the export default "96", the state prefix of the customer's GSTIN, or
  a manual state code checked against the state table. It then classifies the supply as
  EXPORT, SEZ with or without payment, B2B or B2C, and chooses IGST or the CGST + SGST pair.
  IGST applies to SEZ supplies because they are inter-state under section 7(5)(b) of the
  IGST Act, 2017. Exports and SEZ supplies under a Letter of Undertaking are zero-rated
  under section 16 of the same Act, and reverse charge also sets the invoice tax to zero.
  Finally the engine sums the lines, rounds at invoice level and records an ordered logic
  trace.
- **The invoice data.** This covers the single item row, the rows of the tax summary (which
  components appear and in which order), and the amount in words, `numberToWords` in the
  Indian crore/lakh/thousand grouping.
- **The request validators.** These are the slug, phone, GSTIN, password, coupon-code, order
  and admin-search schemas. Each reports every failing check in order, and applies its
  transform only to input that passes.
- **Organisation helpers.** These are `generateSlug` and the three role permissions.
- **The licence invoice number** `INV-<yy><mm>-<id>`.
- **The route-protection decision of the request middleware.**

Amounts are exact Dafny `real`s. `Math.round` is modelled as `floor(x + 1/2)`, and rounding
to paise as `floor(100x + 1/2) / 100`. Reading `ones[i]` outside the table yields JavaScript's
`undefined`, modelled as `None` and printed as "undefined" when concatenated. The clock, the
random placeholder sequence and the session lookup are parameters.

The engine does not reject an empty list of lines or a negative line total, so the model
accepts both. Total tax is rounded from the sum of the already-rounded components. `Math.round`
rounds halves up, towards +∞.

Modules: `Results` (Option/Result), `Text` (JavaScript string built-ins), `Money` (rounding),
`Patterns` (fixed-width regular expressions), `Gst`, `AmountWords`, `InvoiceLayout`,
`Schemas`, `Organizations`, `Brand`, `Middleware`, and `Scenarios` (worked cases of the
engine).

## Model

| member | source | states |
|---|---|---|
| Money.Round0 | src/lib/gst-engine.ts:215 | `Math.round`: the whole number within half a unit of `x`, halves going up |
| Money.Round2 | src/lib/gst-engine.ts:208 | the invoice-level `format`: a whole number of paise within half a paisa of `x` |
| Money.Round0Unique | src/lib/gst-engine.ts:215 | any whole number within half a unit below or above `x` is its rounding, so rounding is fully determined |
| Money.Round2Unique | src/lib/gst-engine.ts:208 | any paise amount within half a paisa of `x` is its two-decimal rounding |
| Money.RoundingIsIdempotent | src/lib/gst-engine.ts:208-215 | rounding a rounded amount again changes nothing, to rupees or to paise |
| Money.CentsSumIsExact | src/lib/gst-engine.ts:214 | the sum of the rounded components is already whole paise, so the outer rounding of total tax keeps it |
| Money.Round2NonNegative | src/lib/gst-engine.ts:208 | rounding never turns a non-negative amount negative |
| Text.ToLower | src/types/organization.ts:85 | `toLowerCase` on ASCII letters: same length, each character lower-cased |
| Text.ToUpper | src/config/brand.ts:94 | `toUpperCase` on ASCII letters: same length, each character upper-cased |
| Text.ToLowerFixesLowerCase | src/lib/validations/validation-schemas.ts:23 | lower-casing changes a string exactly when it holds an upper-case letter, and leaves none |
| Text.ToUpperFixesUpperCase | src/lib/validations/validation-schemas.ts:226 | upper-casing changes a string exactly when it holds a lower-case letter, and leaves none |
| Text.Trim | src/types/organization.ts:86 | `trim`: the result is the part of the input right after its opening white space, every character around it is white space, and it neither starts nor ends with white space |
| Text.TrimUnique | src/types/organization.ts:86 | for any split of a string into white space, a part without white space at either end, and white space, `trim` returns that part |
| Text.TrimWithoutSpaces | src/types/organization.ts:86 | `trim` leaves a string without white space unchanged |
| Text.TrimDropsTrailingBlank | src/lib/invoice-generator.ts:239 | trimming the running text removes exactly the blank written after the last group |
| Text.LastChars | src/config/brand.ts:94 | `slice(-k)` counted in characters: the last `min(k, length)` characters, in place |
| Text.LastCharsInPlane | src/config/brand.ts:94 | inside the Basic Multilingual Plane that is the last `min(k, length)` UTF-16 code units, as `slice(-k)` takes |
| Text.LastCharsCountsCharacters | src/config/brand.ts:94 | outside it the two differ: an id of eight characters and nine code units is kept whole |
| Text.JsLength | src/lib/validations/validation-schemas.ts:48-51 | the string length zod's `min` and `max` compare: UTF-16 code units, one or two per character, one each for text inside the Basic Multilingual Plane, two each outside it |
| Text.JsLengthConcat | src/lib/validations/validation-schemas.ts:48-51 | JavaScript lengths add up over concatenation |
| Text.SurrogatePairLength | src/lib/validations/validation-schemas.ts:48-51 | the emoji U+1F600 is one character but has length 2 |
| Text.FirstChars | src/types/organization.ts:90 | `slice(0, k)`: a prefix of length `min(k, length)` |
| Text.PadStart | src/config/brand.ts:93 | `padStart`: the fill characters and then the string, at least `width` long |
| Text.NatToString | src/lib/gst-engine.ts:104 | `toString` of a whole number: at least one digit, all digits, no leading zero |
| Text.ParseNatToString | src/lib/gst-engine.ts:104 | reading a numeral back gives the number: `toString` loses nothing |
| Text.IntToString | src/config/brand.ts:92 | `toString` of any integer: a numeral with an optional leading '-', present exactly for a negative number, that reads back to the number |
| Text.PaddedNumeralValue | src/lib/gst-engine.ts:104 | `padStart` with zeros keeps a numeral all digits and of the same value |
| Patterns.ClassMeanings | src/lib/gst-engine.ts:84 | the classes `[0-9]`, `[A-Z]`, `[a-z]`, `[0-9A-Z]`, `[1-9A-Z]` hold exactly the characters their names say |
| Patterns.ClassScan | src/lib/gst-engine.ts:84-87 | a scan over the ranges of a class decides membership exactly |
| Patterns.MatchFixedScan | src/lib/gst-engine.ts:86-88 | a left-to-right scan stopping at the first mismatch decides an anchored fixed-width pattern exactly |
| Patterns.ContainsScan | src/lib/validations/validation-schemas.ts:52-54 | a scan stopping at the first hit decides an unanchored one-class `test` exactly |
| Gst.GstinPatternPositions | src/lib/gst-engine.ts:84 | the GSTIN expression has 15 positions: 2 digits, 5 capitals, 4 digits, a capital, `[1-9A-Z]`, 'Z', `[0-9A-Z]` |
| Gst.GstinPositionMatches | src/lib/gst-engine.ts:84 | at every position, matching the class is the position's character rule |
| Gst.ValidateGstinIsShape | src/lib/gst-engine.ts:84-88 | `validateGSTIN` holds if and only if the string has that 15-character shape |
| Gst.StateFromGstin | src/lib/gst-engine.ts:90-93 | succeeds exactly on a well-formed GSTIN and gives its two-digit prefix; otherwise the invalid-format error naming it |
| Gst.KnownStateCodesAreTwoDigits | src/lib/gst-engine.ts:16-26 | every key of the state table is a two-digit code |
| Gst.PrototypeKeyPassesStateCheck | src/lib/gst-engine.ts:141 | the lookup as written accepts "constructor", which is no key of the table and no two-digit code |
| Gst.FyInvoiceNumber | src/lib/gst-engine.ts:101-105 | the suggestion starts "INV/", continues with the year prefix, and ends in at least four digits that read back to the sequence number |
| Gst.FyPrefix | src/lib/gst-engine.ts:101-104 | between "INV/" and the closing '/', the two numerals on either side of a hyphen read back to `fyStartYear % 100` (JavaScript's truncating remainder) and its successor |
| Gst.TruncatedYear | src/lib/gst-engine.ts:102 | the engine's remainder is below 100 in size, a multiple of 100 away from the year, and never of the opposite sign |
| Gst.TwoDigitYearUnique | src/lib/gst-engine.ts:102 | that description fixes the remainder, so the year field is fully determined |
| Gst.FyPrefix2025 | src/lib/gst-engine.ts:101-104 | the financial year starting 2025 gives "INV/25-26/" |
| Gst.FyPrefix2099 | src/lib/gst-engine.ts:101-104 | the year 2099 gives "INV/99-100/": the successor is not wrapped |
| Gst.FyInvoiceNumberEndsInSequence | src/lib/gst-engine.ts:104 | the suggestion ends in at least four digits, and its tail is the sequence's numeral |
| Gst.NewCalculator | src/lib/gst-engine.ts:113-116 | construction succeeds exactly for a well-formed seller GSTIN and keeps the configuration; otherwise the seller-GSTIN error |
| Gst.PlaceOfSupply | src/lib/gst-engine.ts:131-145 | foreign gives "96" from the export default, even with a GSTIN; otherwise a GSTIN gives its prefix and fails with the invalid-GSTIN error naming it when malformed; otherwise the manual code must be present (else the state-code-required error) and a known code (else the invalid-state-code error naming it); any accepted code has two digits |
| Gst.Classify | src/lib/gst-engine.ts:147-169 | foreign gives EXPORT; otherwise SEZ gives without/with payment by LUT; otherwise a GSTIN gives B2B; DEEMED_EXPORT never; multiplier 0 exactly under a LUT for export or SEZ; a trace entry exactly for a LUT zero-rating or B2B |
| Gst.RouteEntry | src/lib/gst-engine.ts:171-178 | the route entry says "Inter-" exactly when the place of supply differs from the seller's state, and ends by naming the place of supply |
| Gst.ApplyIgst | src/lib/gst-engine.ts:171-180 | IGST applies exactly to exports, SEZ supplies and supplies whose place of supply differs from the seller's state |
| Gst.EffectiveRate | src/lib/gst-engine.ts:183-197 | the rate applied is 0 exactly under reverse charge or a LUT zero-rating, 18% otherwise |
| Gst.ComputeAmounts | src/lib/gst-engine.ts:196-215 | IGST alone or an equal CGST/SGST pair at half the rate; all zero at rate 0; every figure whole paise; total tax the sum of the components; total the whole-rupee rounding of taxable plus tax |
| Gst.Trace | src/lib/gst-engine.ts:131-186 | the trace holds the place-of-supply entry, the classification entries, the route entry of a domestic supply and the reverse-charge entry, in that order |
| Gst.Determine | src/lib/gst-engine.ts:147-238 | class from the classification, "code - state name" as place of supply, the rate applied, the amounts of the taxable sum, SAC 9983 and the fresh trace |
| Gst.SumLinesConcat | src/lib/gst-engine.ts:188-193 | the running sum of line totals is the same however the lines are split: the sum over two lists is the sum of their sums |
| Gst.DeterminedTaxes | src/lib/gst-engine.ts:197-215 | CGST equals SGST; IGST excludes the pair; charged tax is the rounded 18% (or 9% each); zero-rated tax is all zero; totals as rounded |
| Gst.DeterminedTrace | src/lib/gst-engine.ts:123-186 | the trace's length and order: place of supply first, the LUT or B2B entry, the intra/inter-state entry of a domestic supply, reverse charge last |
| Gst.ChargedAmounts | src/lib/gst-engine.ts:197-205 | at the full rate the component is the rounded 18% (or 9% each); at the zero rate every tax is zero |
| Gst.Calculate | src/lib/gst-engine.ts:122-239 | fails exactly when the place of supply fails, with the same error; otherwise the classification, the place-of-supply source and label, and everything the later steps decide |
| InvoiceLayout.TaxSummary | src/lib/invoice-generator.ts:104-164 | taxable amount first, total tax and total amount last; CGST and SGST rows exactly when both are positive; an IGST row exactly when IGST is positive |
| InvoiceLayout.ComponentRows | src/lib/invoice-generator.ts:113-143 | the component rows are the pair (if shown) followed by IGST (if shown) |
| InvoiceLayout.ComponentRowCount | src/lib/invoice-generator.ts:114-143 | two rows for a positive pair, plus one for a positive IGST |
| InvoiceLayout.SummaryOfEngineOutput | src/lib/invoice-generator.ts:113-149 | for engine-shaped results, at most two component rows, and they add up to the total tax |
| InvoiceLayout.EngineOutputIsShaped | src/lib/gst-engine.ts:198-214 | the engine's output has equal, non-negative, mutually exclusive components whenever the lines sum to a non-negative amount |
| InvoiceLayout.ItemLine | src/lib/invoice-generator.ts:88-94 | the item row has quantity "1", the result's SAC, and the taxable amount as rate and amount |
| InvoiceLayout.ItemLineOfEngineOutput | src/lib/invoice-generator.ts:88-94 | for engine output the item row carries SAC 9983 and the rounded sum of the lines |
| InvoiceLayout.WordsLineAsWritten | src/lib/invoice-generator.ts:171 | the printed line: "Zero" for a zero total, and the corrected line for every total below ten thousand crore rupees |
| InvoiceLayout.WordsLine | src/lib/invoice-generator.ts:171 | the corrected line: "Amount in words: Zero Only" for a zero total |
| InvoiceLayout.WordsLineSpellsTotal | src/lib/invoice-generator.ts:171 | from a thousand rupees on, the corrected words line spells the total amount's reference words and "Rupees", then "Only" |
| InvoiceLayout.WordsLineMisprintsTenThousandCrore | src/lib/invoice-generator.ts:171 | at 10^10 rupees the printed line says "undefined Hundred Crore Rupees", the corrected line "One Thousand Crore Rupees" |
| AmountWords.OnesAt | src/lib/invoice-generator.ts:207 | `ones[i]` is defined exactly for 0 to 9 |
| AmountWords.ConvertLessThanThousand | src/lib/invoice-generator.ts:211-219 | prints text for every non-negative input; `undefined` only for a negative one |
| AmountWords.SmallWords | src/lib/invoice-generator.ts:211-219 | the reference words of a number below a thousand are valid words, and none exactly for zero |
| AmountWords.IndianWords | src/lib/invoice-generator.ts:226-237 | the reference words of any whole number are valid words, and none exactly for zero |
| AmountWords.SmallWordsRun | src/lib/invoice-generator.ts:211-219 | reading the words of `n < 1000` back adds `n` to the open group |
| AmountWords.GroupRun | src/lib/invoice-generator.ts:235-236 | reading `<n> Lakh` or `<n> Thousand` back adds `n` times the scale |
| AmountWords.IndianGroups | src/lib/invoice-generator.ts:227-230 | crores, lakhs, thousands and remainder recompose the number, and lakhs and thousands are below a hundred |
| AmountWords.IndianWordsAmount | src/lib/invoice-generator.ts:226-237 | reading the reference words of `n` back gives `n` |
| AmountWords.ConvertSpeaksBelowHundred | src/lib/invoice-generator.ts:214-216 | below a hundred, `convertLessThanThousand` prints exactly the reference words |
| AmountWords.HundredsPhrase | src/lib/invoice-generator.ts:218 | the words "<d> Hundred" and a rest spell as `ones[d]` and " Hundred", then a blank and the rest when there is one |
| AmountWords.ConvertSpeaksSmallWords | src/lib/invoice-generator.ts:211-219 | below a thousand, `convertLessThanThousand` prints exactly the reference words |
| AmountWords.NumberToWordsAsWritten | src/lib/invoice-generator.ts:204-240 | "Zero" for 0; `undefined` exactly for a negative rounded amount |
| AmountWords.NumberToWords | src/lib/invoice-generator.ts:204-240 | the corrected conversion: "Zero" for 0; `undefined` exactly for a negative rounded amount |
| AmountWords.GroupStep | src/lib/invoice-generator.ts:234-236 | appending `<count> <scale> ` to the running text appends that group's words, and nothing when the count is zero |
| AmountWords.CloseStep | src/lib/invoice-generator.ts:237-239 | adding the last three digits, trimming and adding " Rupees" gives the words so far followed by "Rupees" |
| AmountWords.WriteGroupsSpeaks | src/lib/invoice-generator.ts:232-237 | the running text is the spelling of the non-zero groups' words, in crore, lakh, thousand, remainder order |
| AmountWords.AssembleSpeaks | src/lib/invoice-generator.ts:226-239 | from a thousand on, the assembled text is the spelling of the reference words and "Rupees" |
| AmountWords.NumberToWordsSpeaksAmount | src/lib/invoice-generator.ts:204-240 | for a non-zero amount that does not round below zero, the corrected conversion prints the reference words of the rounded amount, which read back to it ("Rupees" only from a thousand on, "" when it rounds to 0) |
| AmountWords.SpokenIsInjective | src/lib/invoice-generator.ts:204-240 | different rounded amounts are spoken with different words |
| AmountWords.AsWrittenAgreesBelowTenBillion | src/lib/invoice-generator.ts:227-234 | below ten thousand crore the code as written and the corrected conversion print the same |
| AmountWords.TenThousandCroreGroups | src/lib/invoice-generator.ts:222-230 | 10^10 rupees split into 1000 crores and nothing else |
| AmountWords.OnlyCrores | src/lib/invoice-generator.ts:232-239 | an amount of whole crores is written as its crore phrase, " Crore" and " Rupees" |
| AmountWords.ThousandCroresPhrase | src/lib/invoice-generator.ts:218 | a crore count of 1000 is printed "undefined Hundred"; its reference words are "One Thousand" |
| AmountWords.TenThousandCroreMisprinted | src/lib/invoice-generator.ts:234 | the code as written prints 10^10 rupees as "undefined Hundred Crore Rupees" |
| AmountWords.TenThousandCroreSpoken | src/lib/invoice-generator.ts:234 | the corrected conversion prints it as "One Thousand Crore Rupees" |
| AmountWords.LargeAmounts | src/lib/invoice-generator.ts:222-239 | from a thousand on, both versions assemble the same groups and differ only in the crore phrase |
| Schemas.Failing | src/lib/validations/validation-schemas.ts:48-54 | the issues are those of the failing checks: none exactly when all pass, every failing check's issue present, nothing else, at most one per check |
| Schemas.FailingInOrder | src/lib/validations/validation-schemas.ts:48-54 | the issues of consecutive groups of checks follow one another, so the issues come in the order of the checks |
| Schemas.FailingOfOne | src/lib/validations/validation-schemas.ts:48-54 | a single check contributes its issue exactly when it fails, so each failing check contributes it once |
| Schemas.ReportedIffFails | src/lib/validations/validation-schemas.ts:48-54 | an issue that only one check can report is reported exactly when that check fails |
| Schemas.Outcome | src/lib/validations/validation-schemas.ts:18-23 | the transformed value exactly when there is no issue, else all the issues |
| Schemas.SlugClassMeaning | src/lib/validations/validation-schemas.ts:22 | `[a-z0-9-]` holds exactly the lower-case letters, digits and the hyphen |
| Schemas.ParseSlug | src/lib/validations/validation-schemas.ts:18-23 | accepts exactly 3 to 50 characters of `[a-z0-9-]`, returning the input unchanged; one to three issues otherwise, the too-short issue exactly when the JavaScript length is below 3 |
| Schemas.PhonePatternMeaning | src/lib/validations/validation-schemas.ts:29 | the phone expression matches exactly "+91", a digit from 6 to 9 and nine more digits |
| Schemas.OptionalPattern | src/lib/validations/validation-schemas.ts:27-40 | absent, "" or a match passes, unchanged; anything else fails with the pattern's message |
| Schemas.ParsePhone | src/lib/validations/validation-schemas.ts:27-31 | accepts exactly absent, "" or an Indian mobile number |
| Schemas.ParseGstin | src/lib/validations/validation-schemas.ts:33-40 | accepts exactly absent, "" or the same GSTIN shape that `validateGSTIN` accepts |
| Schemas.ContainsClassMeaning | src/lib/validations/validation-schemas.ts:52-54 | `/[a-z]/`, `/[A-Z]/` and `/[0-9]/` find a character exactly when one is present |
| Schemas.ParsePassword | src/lib/validations/validation-schemas.ts:48-54 | accepts exactly a JavaScript length of 8 to 100 with a lower-case letter, a capital and a digit; reports the length issue exactly when that length is below 8 and the digit issue exactly when there is no digit |
| Schemas.PasswordIssueFacts | src/lib/validations/validation-schemas.ts:48-54 | no issue exactly for a strong password; the length issue exactly when the JavaScript length is below 8; the digit issue exactly when there is no digit |
| Schemas.PasswordAccepted | src/lib/validations/validation-schemas.ts:48-54 | the five checks all pass exactly for a strong password, its length counted in UTF-16 code units |
| Schemas.AstralPasswordAccepted | src/lib/validations/validation-schemas.ts:48-54 | "Aa1" and three emoji: six characters, JavaScript length nine, accepted |
| Schemas.PasswordChecksDistinct | src/lib/validations/validation-schemas.ts:50-54 | the length issue and the digit issue come from one check each |
| Schemas.PasswordIssues | src/lib/validations/validation-schemas.ts:48-54 | one pass over the characters finds exactly the schema's issues |
| Schemas.ParseCouponCode | src/lib/validations/validation-schemas.ts:220-226 | accepts exactly 3 to 20 characters of `[A-Z0-9]` (ASCII, so characters and code units agree); the upper-casing transform returns the code unchanged |
| Schemas.ParseOrder | src/lib/validations/validation-schemas.ts:141-146 | accepts exactly a whole amount in (0, 10,000,000], currency "INR" and a receipt of JavaScript length at most 40; every issue names its field |
| Schemas.AstralReceiptRejected | src/lib/validations/validation-schemas.ts:141-146 | a receipt of 21 emoji has JavaScript length 42 and is refused with the receipt's length issue alone |
| Schemas.ParseSearch | src/lib/validations/validation-schemas.ts:200-204 | accepts exactly a search of JavaScript length at most 100, a positive whole page and a whole limit from 1 to 100; page 1 and limit 50 when absent |
| Organizations.KeepSlugChars | src/types/organization.ts:87 | keeps exactly the characters of `[a-z0-9\s-]` and leaves a string of them unchanged |
| Organizations.KeepSlugCharsInOrder | src/types/organization.ts:87 | filtering distributes over concatenation, so the kept characters stay in order, each as often as it occurs |
| Organizations.KeepSlugCharsOfChar | src/types/organization.ts:87 | a single character is kept exactly when it is in `[a-z0-9\s-]` |
| Organizations.WhitespaceMeaning | src/types/organization.ts:88 | the white-space set is the ASCII `\s` |
| Organizations.RunLength | src/types/organization.ts:88-89 | the length of the maximal run opening the string |
| Organizations.Squeeze | src/types/organization.ts:88-89 | never longer, empty exactly when the input is, only hyphens and characters of the input outside the run set, a leading run becomes a hyphen, and no double hyphen once hyphens are squeezed |
| Organizations.RunLengthOfBlock | src/types/organization.ts:88-89 | a block of run characters followed by a non-run character is exactly the opening run |
| Organizations.SqueezeRun | src/types/organization.ts:88-89 | a maximal run becomes exactly one hyphen |
| Organizations.SqueezeSplits | src/types/organization.ts:88-89 | squeezing distributes over a split after a non-run character, so characters outside runs stay in order |
| Organizations.SqueezeWithoutRuns | src/types/organization.ts:88 | squeezing leaves a string with no run character unchanged |
| Organizations.SqueezeSingleHyphens | src/types/organization.ts:89 | squeezing hyphens leaves a string without double hyphens unchanged |
| Organizations.GenerateSlug | src/types/organization.ts:83-91 | at most 50 characters, only `[a-z0-9-]`, never two hyphens in a row; every letter and digit comes from the lower-cased name; empty exactly when the trimmed lower-cased name keeps no character, so never empty for a name with a letter or digit |
| Organizations.SlugSourceChars | src/types/organization.ts:85-89 | after the squeezing steps, letters and digits come from the lower-cased name, and something is left exactly when the trimmed name keeps a character |
| Organizations.DashedSlugChars | src/types/organization.ts:87-88 | white-space runs of kept characters turn into slug characters only |
| Organizations.SqueezedSlugChars | src/types/organization.ts:89 | squeezing a string of slug characters leaves slug characters only |
| Organizations.GenerateSlugFixesSlugs | src/types/organization.ts:83-91 | a short slug of slug characters without double hyphens comes back unchanged |
| Organizations.GenerateSlugIsIdempotent | src/types/organization.ts:83-91 | `generateSlug` of its own output changes nothing |
| Organizations.GeneratedSlugPassesSchema | src/types/organization.ts:83-91 | a generated slug of three characters or more passes the slug schema unchanged |
| Organizations.Rank | src/types/organization.ts:93-103 | the roles ranked by authority; rank 0 exactly for a plain member |
| Organizations.PermissionsFollowRank | src/types/organization.ts:93-103 | billing and deletion belong exactly to the owner; member management to owner and admin; permissions only grow with rank |
| Brand.GenerateInvoiceNumber | src/config/brand.ts:90-96 | starts "INV-"; for a year of two digits or more, 9 + min(8, id length) characters, the id length counted in characters, with '-' at position 8 |
| Brand.YearPart | src/config/brand.ts:92 | one or two characters; for a year of two digits or more, the two digits of the year modulo 100 |
| Brand.MonthPart | src/config/brand.ts:93 | two digits reading the month index plus one |
| Brand.ShortId | src/config/brand.ts:94 | min(8, length) characters, the length counted in characters, without a lower-case letter |
| Brand.ShortIdChar | src/config/brand.ts:94 | each character is the upper-cased character at the same place from the end of the licence id |
| Brand.MonthNumeral | src/config/brand.ts:93 | the padded month numeral is "01" to "12" and reads back as the month |
| Brand.YearField | src/config/brand.ts:92 | the last two characters of the year's numeral read back as the year modulo 100 |
| Brand.Layout | src/config/brand.ts:95 | the positions of "INV-", year, month, '-' and the id in the number |
| Brand.InvoiceNumberLayout | src/config/brand.ts:95 | with two-digit fields, year at 4-5, month at 6-7, '-' at 8 and the id from 9 on |
| Brand.InvoiceNumberFields | src/config/brand.ts:92-95 | reading the number back gives the year modulo 100 and the month, 1 to 12 |
| Brand.InvoiceNumberSuffix | src/config/brand.ts:94-95 | the suffix is the licence id's last min(8, length) characters, upper-cased, and has no lower-case letter |
| Middleware.Decide | src/middleware.ts:38-57 | redirects exactly when the settings are present, nobody is signed in, and the path is protected but not exactly "/admin-demo"; a redirect changes only the path, to "/login" |
| Middleware.NoRedirectWithoutSettingsOrForUsers | src/middleware.ts:38-41 | without either setting, or for a signed-in user, the request continues |
| Middleware.RedirectIsFinal | src/middleware.ts:53-56 | following the redirect never redirects again |
| Middleware.ProtectionByPrefix | src/middleware.ts:48-53 | "/administrator" and "/admin-demo/x" are protected; exactly "/admin-demo" is public |
| Scenarios.OneLicenceAmounts | src/lib/gst-engine.ts:189-215 | one licence at 10,000: taxable 10,000, tax 1,800 or 900 each, totals 11,800 or 10,000 |
| Scenarios.RegisteredPlaceOfSupply | src/lib/gst-engine.ts:135-138 | a Maharashtra or Karnataka GSTIN gives place of supply "27" or "29" |
| Scenarios.ForeignPlaceOfSupply | src/lib/gst-engine.ts:219 | an export prints the place of supply "96 - Foreign Country" |
| Scenarios.OneLicenceTaxes | src/lib/gst-engine.ts:197-215 | the single licence's tax: nothing when zero-rated, otherwise 1,800 as IGST or 900 + 900 |
| Scenarios.IntraStateSupply | src/lib/gst-engine.ts:166-181 | B2B within Maharashtra: CGST and SGST of 900, no IGST, total 11,800, two summary rows |
| Scenarios.InterStateSupply | src/lib/gst-engine.ts:171-180 | B2B from Maharashtra to Karnataka: IGST 1,800, no pair, total 11,800, one summary row |
| Scenarios.ExportUnderLut | src/lib/gst-engine.ts:152-158 | an export under a LUT: EXPORT, no tax, total 10,000, place "96 - Foreign Country", no component rows |
| Scenarios.ReverseCharge | src/lib/gst-engine.ts:183-186 | reverse charge: still B2B, no tax, total 10,000, the reverse-charge entry last in the trace |
| Scenarios.MissingStateCode | src/lib/gst-engine.ts:140 | a domestic customer without GSTIN or state code is refused with "State code required for non-GST registered customer" |

## Left out

- PDF drawing: fonts, coordinates, the logo file read and the pdfkit calls are foreign-library I/O. Only the data the invoice shows is modelled.
- Money.Round2: amounts are exact reals. The `Number.EPSILON` nudge, binary floating-point drift and `toFixed` formatting are not modelled.
- AmountWords.NumberToWords: `NaN` and the infinities are not modelled, because the model's numbers are reals.
- The calculation timestamp (`new Date().toISOString()`) is not modelled. The clock year and the random placeholder sequence of the invoice-number suggestion are parameters.
- The seller's `roundingMode` and `forceDate` are not modelled, because the engine never reads the former and the rate does not depend on the latter.
- Gst.Calculate: the calculation uses the corrected state check of the second finding. The code as written accepts an `Object.prototype` key such as "constructor" as a manual state code and returns a result, which the model refuses with the invalid-state-code error.
- Text.LastChars: counts characters, while `slice(-8)` counts UTF-16 code units. The two agree only for licence ids inside the Basic Multilingual Plane, so the lengths stated by Brand.ShortId, Brand.InvoiceNumberSuffix and Brand.GenerateInvoiceNumber hold only for such ids. A cut inside a surrogate pair leaves a lone surrogate, which a Dafny character cannot hold.
- Gst.StateName, Gst.LineTotal, Gst.SumLines, InvoiceLayout.PairRows, InvoiceLayout.IgstRows, AmountWords.Assemble, AmountWords.WriteGroups and AmountWords.AddGroup are definitions without a contract of their own. They are characterised by Gst.Determine, Gst.SumLinesConcat, Gst.DeterminedTaxes, InvoiceLayout.ComponentRows, InvoiceLayout.ComponentRowCount, AmountWords.GroupStep, AmountWords.WriteGroupsSpeaks and AmountWords.AssembleSpeaks.
- Gst.ValidateGstin, Gst.IsKnownStateCode, Gst.StateCodeAcceptedAsWritten, Gst.StateCodes and Gst.Rate are the engine's predicates, table and rate without a contract of their own. They are characterised by Gst.ValidateGstinIsShape, Gst.PlaceOfSupply, Gst.KnownStateCodesAreTwoDigits, Gst.PrototypeKeyPassesStateCheck and Gst.EffectiveRate.
- Organizations.CanManageMembers, Organizations.CanManageBilling and Organizations.CanDeleteOrganization are the role predicates, characterised by Organizations.PermissionsFollowRank.
- Middleware.Configured and Middleware.IsProtectedRoute are the settings and route tests, characterised by Middleware.Decide and Middleware.ProtectionByPrefix.
- AmountWords.Ones, AmountWords.Tens, AmountWords.Teens and AmountWords.Str (how `undefined` prints) are the word tables, characterised by AmountWords.OnesAt, AmountWords.ConvertLessThanThousand and AmountWords.ThousandCroresPhrase.
- Text.Present (JavaScript truthiness of an optional string) and Text.StartsWith are characterised by Gst.PlaceOfSupply, Middleware.Decide and Middleware.RedirectIsFinal.
- Gst.StateName: the label of a place of supply that is an `Object.prototype` key is not modelled. Such a key is rejected by the corrected state check before any label is printed.
- Text.IsSpace, Text.ToLower, Text.ToUpper, Brand.ShortId: white space and letter case are ASCII only. Unicode case mapping and the full `\s` class are not modelled.
- The zod built-ins `.email()`, `.url()`, `.uuid()`, `.datetime()` and number coercion are not modelled; the search query is taken after coercion. The order's `notes` record is carried but not checked.
- Schemas.Failing: its own contract states which issues appear and bounds their number. Their order and multiplicity are stated by Schemas.FailingInOrder and Schemas.FailingOfOne, because they relate several calls.
- Organizations.KeepSlugChars: its own contract states which characters are kept. Their order is stated by Organizations.KeepSlugCharsInOrder and Organizations.KeepSlugCharsOfChar, because it relates several calls.
- Organizations.Squeeze: its own contract does not say how each run is replaced. Organizations.SqueezeRun and Organizations.SqueezeSplits state that a maximal run becomes one hyphen and that other characters stay in order.
- Organizations.GenerateSlug: the contract does not state the order of the slug's characters. The order follows from the step lemmas Text.TrimUnique, Organizations.KeepSlugCharsInOrder, Organizations.SqueezeSplits and Organizations.SqueezeRun.
- InvoiceLayout.WordsLine: this uses the corrected conversion of the first finding. InvoiceLayout.WordsLineAsWritten is the line the invoice prints, and the two differ from ten thousand crore rupees on.
- Schemas: zod's default messages for unnamed length and number checks are modelled by the kind of check and its bound, not by their text.
- `sanitizeString`, the payment and subscription routes, email, the background jobs, locale price formatting and the UI components are not part of this model.
- Middleware.Decide: the Supabase client is created before the settings are checked, with possibly missing settings. The model assumes that creation returns normally, because the client library is not part of this model.
- The middleware's matcher configuration and its cookie plumbing are not modelled. The session lookup is a parameter saying whether a user came back.

## Findings

| source | as written | input that shows it | evidently intended | confidence | as-written member | corrected member |
|---|---|---|---|---|---|---|
| src/lib/invoice-generator.ts:211-234 | the crore count goes through `convertLessThanThousand`, which reads `ones[Math.floor(n / 100)]` | a total of 10,000,000,000 rupees (1000 crores) prints "undefined Hundred Crore Rupees" | "One Thousand Crore Rupees": the crore count spoken as a number in its own right | not executed | AmountWords.TenThousandCroreMisprinted | AmountWords.NumberToWordsSpeaksAmount |
| src/lib/gst-engine.ts:141 | the manual state code is checked with a plain object lookup `STATE_CODES[code]` | state code "constructor" (an inherited `Object.prototype` member) passes the check | only the table's own keys are accepted | not executed | Gst.PrototypeKeyPassesStateCheck | Gst.PlaceOfSupply |

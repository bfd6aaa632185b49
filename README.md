# Payment-order system: validation, report and record store

This Dafny project models the core logic of an electronic payment-order
system. The system has three parts:

- **The browser form** (`electronic-forms-system/script.js`):
  - the format checks for a CUI (a Romanian fiscal code of 2 to 10 digits) and a Romanian IBAN;
  - the required-field check;
  - `validateForm`, which combines these checks and leaves field messages on the page;
  - the VAT, tax and total arithmetic of `calculateAmounts`;
  - the `REF-<cui>-<YYYYMMDD>-<n>` payment reference;
  - `escapeXml`.
- **The report endpoint** (`server-simple.js`):
  - the creation-date window filter;
  - the three grouping analyses (purpose, currency and VAT rate);
  - the amount statistics (min, max, average, median, total);
  - the general figures.
- **The record-store handlers** (`server-simple.js`, and the same handlers in
  `HW1/server-simple.js`, four lines earlier): submit, status lookup by
  reference, status update, and the filtered, sorted, paginated listing.
  Each `FormStore` member models both copies. The table below cites one of
  the two; the other copy's lines are four lower (HW1) or four higher.

The JSON data file is a parameter of each handler: `None` when it cannot be
read, otherwise the parsed array of records. Each handler returns the array it
would write back. Clocks, `Math.random()` and the date parsing of
`new Date(...)` are parameters too.

JavaScript numbers are modelled as exact reals. The report's `NaN` (from a
`totalAmount` that `parseFloat` cannot read) is the `NaN` case of `Records.Num`.
Where the source's behaviour depends on JavaScript semantics, the model spells
it out:

- `trim` and `\s` use the ECMAScript whitespace set;
- `toUpperCase` is modelled as far as the IBAN check can observe it;
- `Object.keys` lists array-index keys first, in ascending numeric order
  (section 10.1.11.1 of ECMA-262);
- `Array.prototype.sort` is stable;
- `slice` takes negative arguments from the end;
- `Math.ceil(total / limit)` is `Infinity` or `NaN` for a zero limit;
- `f.id == id` is a loose equality.

Modules:

| file | module | what it holds |
|---|---|---|
| `results.dfy` | `Results` | `Option`, `Result` |
| `js_text.dfy` | `JsText` | `trim`, `\s` removal, `toUpperCase`, digits, decimal rendering, `parseFloat`, global `replace` |
| `seqs.dfy` | `Seqs` | `filter`, first-seen distinct values |
| `sorting.dfy` | `Sorting` | stable insertion sort by a key (the comparator sorts of the source) |
| `key_order.dfy` | `KeyOrder` | `Object.keys` order of a dictionary |
| `form_validation.dfy` | `FormValidation` | CUI/IBAN checks, `validateField`, `validateForm` and its page messages |
| `form_derivation.dfy` | `FormDerivation` | `calculateAmounts`, `updatePaymentReference` |
| `xml_escape.dfy` | `XmlEscape` | `escapeXml` |
| `records.dfy` | `Records` | stored records, numbers with NaN, grouping keys and labels, date window |
| `form_store.dfy` | `FormStore` | submit, status lookup, status update, listing |
| `amount_stats.dfy` | `AmountStats` | `analyzeAmounts` statistics |
| `report.dfy` | `Report` | the grouping analyses and what their groups add up to |
| `report_data.dfy` | `ReportData` | `/api/report-data` |

Where the prose description of the system and the code differ, the model
follows the code:

- A purpose code outside `getPurposeLabel`'s table is passed through unchanged,
  not shown as "Necunoscut".
- Groups whose codes share a label are not merged. They share one
  `percentages` entry, and the later group's value wins.

## Model

| member | source | states |
|---|---|---|
| FormValidation.IsValidCui | electronic-forms-system/script.js:123-125 | accepted iff the value is 2 to 10 characters, all ASCII digits |
| FormValidation.CuiRejectedExamples | electronic-forms-system/script.js:123-125 | "1", "12345678901" and "12a45" are refused |
| FormValidation.CuiAcceptedExample | electronic-forms-system/script.js:123-125 | eight digits are a CUI |
| FormValidation.IsValidIban | electronic-forms-system/script.js:127-153 | accepted iff the value without whitespace and upper-cased has 24 characters: `RO`, two digits, then twenty of A–Z/0–9 |
| FormValidation.IbanNormalizationIdempotent | electronic-forms-system/script.js:130 | normalising the value first does not change the verdict |
| FormValidation.IbanIgnoresWhitespace | electronic-forms-system/script.js:130 | inserting whitespace anywhere, the printed grouping included, does not change the verdict |
| FormValidation.IbanIgnoresCase | electronic-forms-system/script.js:130 | lower-case input is judged like its upper-case form |
| FormValidation.IbanShapeAccepted | electronic-forms-system/script.js:127-153 | every upper-case, unspaced value of the Romanian shape passes both `isValidIBAN` and `validateIBAN` |
| FormValidation.IbanWrongLengthRejected | electronic-forms-system/script.js:133-135 | an unspaced capitals-and-digits value whose length is not 24 is refused |
| FormValidation.IbanTooShortRejected | electronic-forms-system/script.js:133-135 | the 23-character `RO49INGB1B3100759384000` is refused |
| FormValidation.IbanSampleAccepted | electronic-forms-system/script.js:127-153 | the 24-character sample account is accepted |
| FormValidation.ValidateCui | electronic-forms-system/script.js:99-109 | passes iff the value is blank or its trimmed form is a CUI: emptiness is not a format error |
| FormValidation.ValidateIban | electronic-forms-system/script.js:111-121 | passes iff the value is blank or is a valid IBAN; the pre-stripping of whitespace changes no verdict |
| FormValidation.IbanPrestripHarmless | electronic-forms-system/script.js:113-115 | removing whitespace before `isValidIBAN` removes it again leaves the verdict unchanged |
| FormValidation.StripTrimmed | electronic-forms-system/script.js:113 | `trim()` then whitespace removal equals whitespace removal alone |
| FormValidation.DigitsCuiAccepted | electronic-forms-system/script.js:99-109 | any 2 to 10 digits pass `validateCUI` |
| FormValidation.ValidateField | electronic-forms-system/script.js:90-97 | a field passes iff it is not blank after `trim()` |
| FormValidation.RequiredFieldsCoverAll | electronic-forms-system/script.js:463-467 | the required list names all eleven form fields |
| FormValidation.CheckRequiredFields | electronic-forms-system/script.js:469-476 | the loop visits every listed field with no short-circuit; its verdict and messages are those of `RequiredPass` over the whole list |
| FormValidation.RequiredPassVerdict | electronic-forms-system/script.js:469-476 | after any prefix of the list, the flag is still true iff no visited field is missing |
| FormValidation.RequiredPassMessages | electronic-forms-system/script.js:469-476 | after any prefix of the list, exactly the missing visited fields show "required" |
| FormValidation.MissingIsBlank | electronic-forms-system/script.js:90-97 | the fields the required check flags are exactly the blank ones |
| FormValidation.ValidateForm | electronic-forms-system/script.js:462-496 | returns true iff every required field is non-blank, both CUI checks and the IBAN check pass and the base amount is not a number <= 0; the messages left are those of `ShownMessages` |
| FormValidation.AcceptedOfVerdicts | electronic-forms-system/script.js:462-496 | the verdict depends only on the blank set and the four check outcomes |
| FormValidation.DisplayAfterChecksIsShown | electronic-forms-system/script.js:479-493 | applying the CUI (beneficiary only after the payer passes), IBAN and amount checks in order to the required-field messages gives `ShownMessages` |
| FormValidation.ShownMeansRejected | electronic-forms-system/script.js:462-496 | a field message on the page always comes with a rejected form |
| FormValidation.SilentRejection | electronic-forms-system/script.js:99-121 | a form is rejected with no field message iff the only failures are blank fields among the two CUIs and the account |
| FormValidation.BlankCuiRejectedWithoutMessage | electronic-forms-system/script.js:462-496 | a complete form with only the payer CUI blank is rejected, shows no field message, and would show "required" on that CUI under the intended display |
| FormValidation.IntendedMessagesExplainRejection | electronic-forms-system/script.js:462-496 | with the intended display, a form is rejected iff some message shows, and every blank field shows one |
| FormValidation.ExampleAmountPositive | electronic-forms-system/script.js:489-493 | "5000" does not trigger the amount rule |
| FormDerivation.Derive | electronic-forms-system/script.js:40-50 | vat = base·vatRate/100, tax = base·taxRate/100, total = base·(100 + vatRate + taxRate)/100, and total − vat − tax = base |
| FormDerivation.AmountsNonNegative | electronic-forms-system/script.js:40-50 | with non-negative inputs, vat, tax >= 0 and total >= base |
| FormDerivation.CalculateAmounts | electronic-forms-system/script.js:35-50 | each input is `parseFloat(…) \|\| 0`: total = base + vat + tax, an unreadable rate contributes 0, and an unreadable base makes every amount 0 |
| FormDerivation.AmountsExample | electronic-forms-system/script.js:35-50 | base 5000 at 19% VAT and 5% tax gives 950, 250 and 6200 |
| FormDerivation.DateDigitsShape | electronic-forms-system/script.js:66 | the date part is eight digits: the zero-padded year, month and day side by side |
| FormDerivation.DateDigitsValue | electronic-forms-system/script.js:66 | the eight digits read as the number YYYYMMDD |
| FormDerivation.DateDigitsRoundTrip | electronic-forms-system/script.js:66 | decoding the date digits gives back the calendar day |
| FormDerivation.TrailingDigitRun | electronic-forms-system/script.js:67 | the counted suffix is all digits and within the string |
| FormDerivation.PaymentReference | electronic-forms-system/script.js:65-67 | parsing the built reference gives back the payer CUI (dashes included), the date digits and the suffix |
| FormDerivation.ParseBuiltReference | electronic-forms-system/script.js:67 | any CUI, eight date digits and a digit suffix joined as `REF-…` split back apart |
| FormDerivation.UpdatePaymentReference | electronic-forms-system/script.js:59-70 | the field is kept iff an input is empty; an invalid date writes nothing; a rewritten reference parses back to the CUI, the date and the suffix |
| XmlEscape.EscapeXmlIsCharwise | electronic-forms-system/script.js:345-351 | the five global replacements, ampersand first, equal replacing each character by its entity |
| XmlEscape.EscapeXmlOfChar | electronic-forms-system/script.js:345-351 | one character comes out as its predefined entity, or as itself |
| XmlEscape.EscapeXmlAppend | electronic-forms-system/script.js:345-351 | escaping distributes over concatenation |
| XmlEscape.EscapeXml | electronic-forms-system/script.js:345-351 | the escaped text contains no `<`, `>`, `"` or `'`; `EscapeXmlIsCharwise` and `UnescapeEscape` state its full effect |
| XmlEscape.EscapeXmlIdentity | electronic-forms-system/script.js:345-351 | a text with none of the five characters is unchanged |
| XmlEscape.UnescapeEscape | electronic-forms-system/script.js:345-351 | reading the entities back gives the original text: no text is double-escaped or lost |
| JsText.Trim | electronic-forms-system/script.js:91 | `trim()` is a slice starting after the leading whitespace, neither end is whitespace, and it is empty iff the value is blank |
| JsText.TrimKeeps | electronic-forms-system/script.js:101 | a value with no whitespace at either end is its own `trim()` |
| JsText.RemoveWhitespace | electronic-forms-system/script.js:130 | `replace(/\s/g, '')` leaves no whitespace and invents no character |
| JsText.RemoveWhitespaceEmptyIffBlank | electronic-forms-system/script.js:113-115 | nothing is left iff the value was blank |
| JsText.RemoveWhitespaceToUpperCommute | electronic-forms-system/script.js:130 | whitespace removal and upper-casing commute |
| JsText.ToUpperIdempotent | electronic-forms-system/script.js:130 | upper-casing twice is upper-casing once |
| JsText.ToUpperNoSpace | electronic-forms-system/script.js:130 | upper-casing never creates whitespace |
| JsText.NatToDecimalRoundTrip | electronic-forms-system/script.js:67 | a rendered number reads back as itself |
| JsText.ZeroPad | electronic-forms-system/script.js:66 | the padded rendering has the requested width, is all digits and denotes the number |
| JsText.ParseUnsignedDecimal | electronic-forms-system/script.js:36-38 | the result is non-negative, and is NaN iff the text starts with neither a digit nor `.` followed by a digit |
| JsText.ParseFloat | electronic-forms-system/script.js:36-38 | a negative result needs a leading `-` after the skipped whitespace |
| JsText.ParseFloatBlank | electronic-forms-system/script.js:36-38 | a blank value is NaN |
| JsText.ParseFloatOfDecimal | electronic-forms-system/script.js:36-38 | a plain decimal numeral reads back as its number |
| JsText.ParseFloatOfFraction | server-simple.js:377 | a numeral `d.f` followed by any text that does not start with a digit (`6200.00`, `12.5abc`) reads as d + f / 10^n, n the number of digits of f |
| JsText.ParseFloatOfNegativeFraction | server-simple.js:377 | the same numeral with a leading `-` reads as the negation of that value |
| JsText.ParseFloatOfInteger | electronic-forms-system/script.js:36-38 | an integer numeral followed by text that starts with neither a digit nor `.` reads as the integer, the rest ignored |
| JsText.ReplaceAllAppend | electronic-forms-system/script.js:66 | a global replace distributes over concatenation |
| JsText.ReplaceAllAbsent | electronic-forms-system/script.js:66 | a text without the character is left alone |
| Records.AmountOfEmptyOrBlank | server-simple.js:377 | an absent or empty total counts as 0, a blank one is NaN |
| Records.AmountOfDecimal | server-simple.js:377 | a total written as a decimal numeral reads as that number |
| Records.AmountOf | server-simple.js:377 | `parseFloat(form.totalAmount \|\| 0)` is NaN iff a non-empty total has no leading number; otherwise it is the number read |
| Records.PurposeLabel | server-simple.js:506-515 | a code in the table gets its label, any other code is its own label, and the label is empty only for an empty code |
| Records.FilterWindow | server-simple.js:306-315 | every kept record is a stored one inside the window; `WindowIsOneFilter` adds that all such records are kept, in stored order |
| Records.PurposeLabelsCollide | server-simple.js:506-515 | a code outside the table is its own label, so two codes can share a label |
| Records.VatLabelInjective | server-simple.js:486 | different VAT rates get different `<rate>%` labels |
| Records.WindowIsOneFilter | server-simple.js:306-315 | the two date filters together keep exactly the records in the window, in stored order |
| Records.InvalidBoundKeepsNothing | server-simple.js:306-315 | an invalid date bound keeps no record |
| Report.Tally | server-simple.js:374-378 | the pass lists each key once, in first-seen order; each key's count is its group's size and its sum is its group's sum |
| Report.TallyOfOrder | server-simple.js:374-378 | the dictionaries hold exactly the keys met, in first-seen order |
| Report.TallyOfCounts | server-simple.js:376 | a key's count is the number of records with that key |
| Report.TallyOfSums | server-simple.js:377 | a key's sum is the group's sum, with `|| 0` resetting a NaN sum |
| Report.GroupAmountNaN | server-simple.js:377 | a group's sum is NaN iff its last record's total is not a number |
| Report.GroupKeysExact | server-simple.js:386 | `Object.keys` lists every record's key once and nothing else |
| Report.IndexKeysAscending | server-simple.js:474-483 | when every key is an array index (the VAT rates), the groups come in ascending numeric order |
| Report.Columns | server-simple.js:386-394 | the first walk over the keys builds the labels, counts, sums and percentage table |
| Report.Details | server-simple.js:402-407 | the second walk builds one detail per key, its percentage read from the table by label |
| Report.Analyze | server-simple.js:370-409 | the tally then the two walks give `AnalysisOf` |
| Report.PercentTableLastWins | server-simple.js:391 | a label's percentage is that of the last group carrying it |
| Report.AnalysisParts | server-simple.js:370-409 | labels, data, amounts and details are read off the same key sequence |
| Report.AnalysisShape | server-simple.js:370-409 | one entry per distinct key, arrays index-aligned with each other and with the details, each count the size of a non-empty group, `total` the record count |
| Report.CountsSumToTotal | server-simple.js:380 | the counts add up to the number of records |
| Report.PercentagesSumTo100 | server-simple.js:388 | the unrounded percentages add up to 100 |
| Report.AmountsSumToTotal | server-simple.js:377 | when every total is a number, the group sums add up to the sum of all totals |
| Report.DetailPercentage | server-simple.js:390-405 | a detail shows the percentage of the last group with its label |
| Report.DistinctLabelsOwnPercentage | server-simple.js:390-405 | with labels that tell the keys apart, each detail shows its own group's percentage |
| Report.CountsPartition | server-simple.js:374-378 | groups of distinct keys that cover all records partition them |
| Report.AmountsPartition | server-simple.js:374-378 | the sums of such groups add up to the total when all totals are numbers |
| ReportData.AnalyzeByPurpose | server-simple.js:370-409 | groups by `paymentPurpose \|\| 'necunoscut'`, labelled by `getPurposeLabel`, with sums |
| ReportData.AnalyzeByCurrency | server-simple.js:412-450 | groups by `currency \|\| 'necunoscut'`, labelled by the currency, with sums |
| ReportData.AnalyzeVat | server-simple.js:470-503 | groups by `vatRate \|\| '0'`, labelled `<rate>%`, without sums |
| ReportData.VatAndCurrencyOwnPercentages | server-simple.js:412-503 | in the VAT and currency analyses every detail shows its own group's percentage |
| ReportData.MissingKeysDefault | server-simple.js:375 | no purpose gives `necunoscut`, labelled `Necunoscut`; no currency gives `necunoscut`; no VAT rate gives `0%` |
| ReportData.AnalyzeAmounts | server-simple.js:453-467 | the statistics are numbers iff every total is a number, and the count is the record count |
| ReportData.GeneralStatsOf | server-simple.js:337-346 | `totalForms` is the record count, and the average is NaN iff the total is, otherwise average · count = total |
| ReportData.GeneralMatchesAmounts | server-simple.js:337-346 | `totalForms` is the record count, the total and average agree with the amount statistics (NaN otherwise), and the date range is that of the first and last stored record |
| ReportData.GeneralMatchesGroups | server-simple.js:337-346 | the group counts add up to `totalForms`, and the group sums to `totalAmount` when all totals are numbers |
| ReportData.TotalOfValues | server-simple.js:339 | the reduce over the totals is their sum when all are numbers |
| ReportData.TotalNaN | server-simple.js:339 | one unreadable total makes the reduce NaN |
| ReportData.BuildReport | server-simple.js:288-367 | an unreadable store and an empty window are the two 404s; otherwise the four analyses, the general figures and the kept records |
| ReportData.ReportedRecords | server-simple.js:306-322 | the reported records are exactly the stored ones in the window, in stored order; an invalid bound leaves none |
| AmountStats.Min | server-simple.js:458 | the minimum is one of the amounts and at most each |
| AmountStats.Max | server-simple.js:459 | the maximum is one of the amounts and at least each |
| AmountStats.Average | server-simple.js:460 | average · count = sum |
| AmountStats.AverageBetween | server-simple.js:458-460 | min <= average <= max |
| AmountStats.MedianIsMiddle | server-simple.js:455-463 | the median is taken on an ascending permutation of the amounts and lies between its middle entries |
| AmountStats.SummaryBounds | server-simple.js:453-467 | count = length, total = sum, min <= median <= max and min <= average <= max |
| KeyOrder.ObjectKeysOrder | server-simple.js:386 | `Object.keys` lists each inserted key exactly once |
| KeyOrder.IndexKeysFirst | server-simple.js:386 | array-index keys come first in ascending numeric order, then the other keys in insertion order |
| KeyOrder.NoIndexKeysKeepOrder | server-simple.js:386 | without array-index keys the order is insertion order |
| KeyOrder.OnlyIndexKeysAscending | server-simple.js:483 | with only array-index keys the order is ascending |
| Sorting.SortSorted | server-simple.js:204 | the sort returns an ordered permutation of its input |
| Sorting.SortStable | server-simple.js:204 | records with equal keys keep their relative order |
| Seqs.FilterAppend | server-simple.js:188 | `filter` works piece by piece, so it keeps relative order |
| Seqs.FilterFilter | server-simple.js:188-200 | two filters in a row are one filter by the conjunction |
| Seqs.Distinct | server-simple.js:374-378 | the distinct values: no repeats, and exactly the elements of the input |
| Seqs.DistinctFirstSeen | server-simple.js:374-378 | the distinct values come in the order of their first occurrences, the insertion order of the dictionaries |
| FormStore.NewRecord | server-simple.js:76-88 | the record keeps every posted field but the six it sets, starts pending with the uploaded files, has the server's createdAt and updatedAt whatever was posted, and takes a posted id or reference in place of the generated one (the clock's id, and the reference built from the clock and suffix) |
| FormStore.Submit | server-simple.js:59-118 | rejected iff a name is missing; otherwise the array grows by one at the end, earlier records unchanged, and the reply carries the new id and the generated reference |
| FormStore.FindByReference | server-simple.js:137 | the index of the first record with that reference, none iff there is none |
| FormStore.ViewOf | server-simple.js:145-160 | the reply shows the record's own id, reference, status and times, and one `form_submitted` log entry stamped with its creation time |
| FormStore.FormStatus | server-simple.js:121-170 | found iff the store is readable and some record has the reference; then the view of the first such record |
| FormStore.LookupAfterSubmit | server-simple.js:73-143 | looking up the reference a submission returns finds the new pending record |
| FormStore.FindAfterAppend | HW1/server-simple.js:97-139 | appending changes no successful lookup, and finds the new record for a new reference |
| FormStore.SubmitKeepsLookups | HW1/server-simple.js:97-139 | a submission changes no successful status lookup |
| FormStore.FindIndex | server-simple.js:258 | the first index whose id loosely equals the parameter, or -1 when none does |
| FormStore.IdMatchesNumeral | server-simple.js:258 | `f.id == id` on a numeric id: its decimal rendering matches it behind any leading zeros, and matches no other numeric id |
| FormStore.UpdateStatus | server-simple.js:232-283 | an unknown status is refused before the store is read; the update succeeds iff the status is known, the store readable and some id matches; not-found iff no id matches; only the first match's status and update time change |
| FormStore.LookupAfterUpdate | HW1/server-simple.js:254-263 | an update changes no lookup by reference, and the updated record shows its new status |
| FormStore.MatchingIsOneFilter | server-simple.js:187-201 | the status and date filters keep exactly the selected records, in stored order |
| FormStore.ListedAreSelected | HW1/server-simple.js:183-205 | every listed record is stored and passes the filters |
| FormStore.OrderedIsPermutation | HW1/server-simple.js:200 | the sorted list is a permutation of the selected records |
| FormStore.OrderedNewestFirst | server-simple.js:204 | newest first; records created at the same instant keep their stored order |
| FormStore.RelativeIndex | server-simple.js:209 | a `slice` argument in range is used as is, and the result is always in range |
| FormStore.Slice | server-simple.js:209 | `slice` with arguments in range is the plain sub-sequence, and never longer than the input |
| FormStore.SliceClamped | server-simple.js:209 | any `slice` is the run of the input from the clamped start, as long as the clamped end allows |
| FormStore.PageCountOf | server-simple.js:218 | `Math.ceil(total/limit)`: for a positive limit the smallest count of pages covering the records (0 for none), for a negative limit the ceiling of the negative quotient, Infinity or NaN for a zero limit |
| FormStore.PageContents | server-simple.js:207-209 | page p holds the sorted records from (p−1)·limit on, at most `limit` of them |
| FormStore.RecordOnItsPage | HW1/server-simple.js:203-215 | record k is on page k/limit + 1, at position k mod limit, and that page is counted |
| FormStore.ListForms | server-simple.js:173-229 | `total` is the number of selected records before slicing |

## Left out

- The page itself: event listeners, the styling done by `showFieldError`/`clearFieldError`, status timers and pop-ups. Messages are a map from field to message kind.
- `toFixed(1)`/`toFixed(2)` rendering and IEEE-754 rounding: amounts and percentages are exact reals.
- The exponent and `Infinity` forms of `parseFloat`: the text is read as sign and decimal digits only.
- The mod-97 check digits of an IBAN: the source does not check them either.
- `toUpperCase` beyond what can change the IBAN verdict: characters whose upper case contains a non-ASCII character are kept as they are.
- FormDerivation.UpdatePaymentReference: the calendar day of `new Date(paymentDate)` is a parameter (time zones and date parsing are not modelled), and years above 9999 and below 0, which `toISOString` writes with a sign (`+010000-…`, `-000001-…`), are not covered.
- FormDerivation.Derive: the written-back values are not rounded to two decimals, and `showStatus` is left out.
- `Date.now()`, `new Date().toISOString()`, `Math.random()` and the day-end `setHours(23, 59, 59, 999)` are parameters: record times are milliseconds, and the `dateTo` bound arrives already moved to the end of its day.
- Reading and writing the JSON file, `JSON.parse`, Express routing, multer uploads and the 500 replies: the store is passed in and the array to write is returned.
- Concurrent requests on the data file (last writer wins).
- A stored file that parses to something other than an array of records, and posted fields that are not strings.
- FormStore.IdMatches: loose equality is modelled for a numeric id against a parameter of decimal digits (leading zeros included, as `==` converts them) and for a text id against the same text; other spellings that `Number()` accepts (`"1e3"`, `"0x10"`, surrounding whitespace, `""` for 0) are not.
- FormStore.ListForms: `page` and `limit` are integers; non-numeric query values (NaN pages) are not modelled.
- ReportData.AnalyzeAmounts: when a total is NaN only the count is kept; the NaN-dependent min, max and median are not modelled.
- Prototype-chain keys such as `__proto__` or `constructor` as grouping keys are not modelled.
- `createXMLContent`, the XML download, the PDF generation and report.js (chart rendering of the server's figures).
- HW1/install-simple.js (directory creation and a Node version check).

## Findings

| source | as written | input that shows it | evidently intended | confidence | as-written member | corrected member |
|---|---|---|---|---|---|---|
| electronic-forms-system/script.js:462-496 | the required-field loop shows "required" on a blank payer CUI, beneficiary CUI or account, then `validateCUI`/`validateIBAN` accept the blank value and call `clearFieldError`, so the form is rejected with no field message: only the general error status is shown | `FormValidation.BlankPayerCuiForm`: a complete form whose payer CUI is empty | the "required" message stays on a blank field whose format check passes, so every rejection is explained by a field message | not executed | FormValidation.BlankCuiRejectedWithoutMessage | FormValidation.IntendedMessagesExplainRejection |

/**
 * The values the payment form derives from its inputs
 * (electronic-forms-system/script.js): the VAT, tax and total amounts of
 * `calculateAmounts`, and the `REF-<cui>-<YYYYMMDD>-<n>` payment reference of
 * `updatePaymentReference`.
 */
module FormDerivation {
  import opened Results
  import opened JsText

  /** The three amounts `calculateAmounts` writes back, before `toFixed(2)`. */
  datatype Amounts = Amounts(vat: real, tax: real, total: real)

  /**
   * The arithmetic of `calculateAmounts`: VAT and tax are percentages of the
   * base, and the total adds the unrounded VAT and tax.
   */
  function Derive(base: real, vatRate: real, taxRate: real): (a: Amounts)
    ensures a.vat == base * vatRate / 100.0 && a.tax == base * taxRate / 100.0
    ensures a.total == base * (100.0 + vatRate + taxRate) / 100.0
    ensures a.total - a.vat - a.tax == base
  {
    var vat := base * vatRate / 100.0;
    var tax := base * taxRate / 100.0;
    Distribute(base, vatRate, taxRate);
    Amounts(vat, tax, base + vat + tax)
  }

  lemma {:induction false} Distribute(b: real, v: real, t: real)
    ensures b + b * v / 100.0 + b * t / 100.0 == b * (100.0 + v + t) / 100.0
  {
  }

  /**
   * `calculateAmounts`: each input is `parseFloat(...) || 0`, so an input that
   * is not a number contributes nothing, and an unreadable base zeroes everything.
   */
  function CalculateAmounts(baseAmount: string, vatRate: string, taxRate: string): (a: Amounts)
    ensures a.total == ParseFloatOrZero(baseAmount) + a.vat + a.tax
    ensures ParseFloat(baseAmount).None? ==> a == Amounts(0.0, 0.0, 0.0)
    ensures ParseFloat(vatRate).None? ==> a.vat == 0.0
    ensures ParseFloat(taxRate).None? ==> a.tax == 0.0
  {
    Derive(ParseFloatOrZero(baseAmount), ParseFloatOrZero(vatRate), ParseFloatOrZero(taxRate))
  }

  /** With a non-negative base and rates, nothing is negative and the total is at least the base. */
  lemma {:induction false} AmountsNonNegative(base: real, vatRate: real, taxRate: real)
    requires base >= 0.0 && vatRate >= 0.0 && taxRate >= 0.0
    ensures Derive(base, vatRate, taxRate).vat >= 0.0
    ensures Derive(base, vatRate, taxRate).tax >= 0.0
    ensures Derive(base, vatRate, taxRate).total >= base
  {
  }

  /** A base of 5000 at 19% VAT and 5% tax gives 950, 250 and 6200. */
  lemma AmountsExample()
    ensures CalculateAmounts("5000", "19", "5") == Amounts(950.0, 250.0, 6200.0)
  {
    assert NatToDecimal(5000) == "5000";
    ParseFloatOfDecimal(5000);
    assert NatToDecimal(19) == "19";
    ParseFloatOfDecimal(19);
    assert NatToDecimal(5) == "5";
    ParseFloatOfDecimal(5);
  }

  /** The UTC calendar day of `new Date(paymentDate)`, for the four-digit years `toISOString` writes plainly. */
  datatype CalendarDay = CalendarDay(year: nat, month: nat, day: nat) {
    predicate Valid() {
      year < 10000 && 1 <= month <= 12 && 1 <= day <= 31
    }
  }

  type Day = d: CalendarDay | d.Valid() witness CalendarDay(2000, 1, 1)

  /** `date.toISOString().slice(0, 10)`: `YYYY-MM-DD`. */
  function IsoDate(d: Day): string {
    assert Pow10(4) == 10000 && Pow10(2) == 100;
    ZeroPad(d.year, 4) + "-" + ZeroPad(d.month, 2) + "-" + ZeroPad(d.day, 2)
  }

  /** `.replace(/-/g, '')` on the ISO date. */
  function DateDigits(d: Day): string {
    ReplaceAll(IsoDate(d), '-', "")
  }

  /** The date part of the reference is eight digits that read back as `YYYYMMDD`. */
  lemma {:induction false} DateDigitsShape(d: Day)
    ensures |DateDigits(d)| == 8 && AllDigits(DateDigits(d))
    ensures DateDigits(d)[..4] == ZeroPad(d.year, 4)
    ensures DateDigits(d)[4..6] == ZeroPad(d.month, 2)
    ensures DateDigits(d)[6..] == ZeroPad(d.day, 2)
  {
    assert Pow10(4) == 10000 && Pow10(2) == 100;
    var y, m, dd := ZeroPad(d.year, 4), ZeroPad(d.month, 2), ZeroPad(d.day, 2);
    DashesRemoved(y, m, dd);
    var s := y + m + dd;
    assert s[..4] == y && s[4..6] == m && s[6..] == dd;
  }

  /** Removing the two dashes of `y-m-d` leaves the digits side by side. */
  lemma {:induction false} DashesRemoved(y: string, m: string, dd: string)
    requires AllDigits(y) && AllDigits(m) && AllDigits(dd)
    ensures ReplaceAll(y + "-" + m + "-" + dd, '-', "") == y + m + dd
    ensures AllDigits(y + m + dd)
  {
    DropDash(y + "-" + m, dd);
    DropDash(y, m);
    ReplaceAllAbsent(y, '-', "");
    ReplaceAllAbsent(m, '-', "");
    ReplaceAllAbsent(dd, '-', "");
  }

  lemma {:induction false} DropDash(a: string, b: string)
    ensures ReplaceAll(a + "-" + b, '-', "") == ReplaceAll(a, '-', "") + ReplaceAll(b, '-', "")
  {
    ReplaceAllAppend(a + "-", b, '-', "");
    ReplaceAllAppend(a, "-", '-', "");
    ReplaceAllOne('-', "");
  }

  /** The date digits as the number `YYYYMMDD`. */
  lemma {:induction false} DateDigitsValue(d: Day)
    ensures |DateDigits(d)| == 8 && AllDigits(DateDigits(d))
    ensures DigitsValue(DateDigits(d)) == d.year * 10000 + d.month * 100 + d.day
  {
    DateDigitsShape(d);
    var s := DateDigits(d);
    assert s == s[..4] + s[4..6] + s[6..];
    assert Pow10(4) == 10000 && Pow10(2) == 100;
    DigitsValueAppend(s[..4], s[4..6]);
    DigitsValueAppend(s[..4] + s[4..6], s[6..]);
  }

  /** Reading the eight digits back as a calendar day. */
  function DecodeDateDigits(s: string): CalendarDay
    requires |s| == 8 && AllDigits(s)
  {
    CalendarDay(DigitsValue(s[..4]), DigitsValue(s[4..6]), DigitsValue(s[6..]))
  }

  /** The date part of a reference determines the payment date. */
  lemma {:induction false} DateDigitsRoundTrip(d: Day)
    ensures |DateDigits(d)| == 8 && AllDigits(DateDigits(d))
    ensures DecodeDateDigits(DateDigits(d)) == d
  {
    DateDigitsShape(d);
  }

  /**
   * The reference `updatePaymentReference` builds; it splits back into the
   * CUI, the date digits and the suffix it was built from.
   */
  function PaymentReference(payerCui: string, d: Day, n: Suffix): (r: string)
    ensures ParseReference(r) == Some(ReferenceParts(payerCui, DateDigits(d), n))
  {
    DateDigitsShape(d);
    NatToDecimalRoundTrip(n);
    ParseBuiltReference(payerCui, DateDigits(d), NatToDecimal(n));
    "REF-" + payerCui + "-" + DateDigits(d) + "-" + NatToDecimal(n)
  }

  /** The three parts of a reference: the payer's CUI as typed, the date digits and the suffix. */
  datatype ReferenceParts = ReferenceParts(payerCui: string, dateDigits: string, suffix: nat)

  /** Length of the run of ASCII digits at the end of `s`. */
  function TrailingDigitRun(s: string): (k: nat)
    ensures k <= |s| && AllDigits(s[|s| - k..])
  {
    if s != [] && IsDigit(s[|s| - 1]) then
      var k := TrailingDigitRun(s[..|s| - 1]);
      assert s[|s| - (k + 1)..] == s[..|s| - 1][|s| - 1 - k..] + [s[|s| - 1]];
      k + 1
    else 0
  }

  lemma {:induction false} TrailingDigitRunAfter(p: string, d: string)
    requires p != [] && !IsDigit(p[|p| - 1]) && AllDigits(d)
    ensures TrailingDigitRun(p + d) == |d|
  {
    if d != [] {
      assert (p + d)[..|p + d| - 1] == p + d[..|d| - 1];
      TrailingDigitRunAfter(p, d[..|d| - 1]);
    } else {
      assert p + d == p;
    }
  }

  /**
   * Splitting a reference back into its parts, from the end: the suffix is the
   * trailing digit run, then a dash, eight date digits, a dash; what lies
   * between `REF-` and that dash is the CUI, dashes included.
   */
  function ParseReference(r: string): Option<ReferenceParts> {
    var k := TrailingDigitRun(r);
    if k == 0 || |r| < k + 14 || r[|r| - k - 1] != '-' then None
    else
      var rest := r[..|r| - k - 1];
      if rest[|rest| - 9] != '-' || rest[..4] != "REF-" || !AllDigits(rest[|rest| - 8..]) then None
      else Some(ReferenceParts(rest[4..|rest| - 9], rest[|rest| - 8..], DigitsValue(r[|r| - k..])))
  }

  /** Any CUI, eight date digits and a non-empty digit suffix, joined as a reference, split back apart. */
  lemma {:induction false} ParseBuiltReference(payerCui: string, date: string, num: string)
    requires |date| == 8 && AllDigits(date) && |num| >= 1 && AllDigits(num)
    ensures ParseReference("REF-" + payerCui + "-" + date + "-" + num)
      == Some(ReferenceParts(payerCui, date, DigitsValue(num)))
  {
    var head := "REF-" + payerCui + "-" + date;
    SplitHead(payerCui, date);
    SplitSuffix(head, num);
  }

  /** The suffix of `head-num` is the trailing digit run, behind a dash, with `head` before it. */
  lemma {:induction false} SplitSuffix(head: string, num: string)
    requires |num| >= 1 && AllDigits(num)
    ensures var r, k := head + "-" + num, |num|;
      && TrailingDigitRun(r) == k && |r| == |head| + k + 1
      && r[|r| - k..] == num && r[|r| - k - 1] == '-' && r[..|r| - k - 1] == head
  {
    ThreeParts(head, "-", num);
    TrailingDigitRunAfter(head + "-", num);
  }

  /** The parts of `REF-cui-date` sit at fixed distances from its ends. */
  lemma {:induction false} SplitHead(payerCui: string, date: string)
    requires |date| == 8
    ensures var head := "REF-" + payerCui + "-" + date;
      && |head| == |payerCui| + 13
      && head[|head| - 9] == '-' && head[|head| - 8..] == date
      && head[..4] == "REF-" && head[4..|head| - 9] == payerCui
  {
    var head := "REF-" + payerCui + "-" + date;
    ThreeParts("REF-" + payerCui, "-", date);
    ThreeParts("REF-", payerCui, "-" + date);
    assert head == "REF-" + payerCui + ("-" + date);
  }

  /** The three pieces of a concatenation are its slices at the joints. */
  lemma {:induction false} ThreeParts(a: string, b: string, c: string)
    ensures var s := a + b + c;
      && |s| == |a| + |b| + |c|
      && s[..|a|] == a && s[|a|..|a| + |b|] == b && s[|a| + |b|..] == c
      && s[..|a| + |b|] == a + b
  {
  }

  /** What `updatePaymentReference` does to the reference field. */
  datatype ReferenceUpdate =
    | Kept                          // an input is empty: the field is left as it was
    | Rewritten(reference: string)  // the field gets a new reference
    | DateError                     // `toISOString` throws on an invalid date: nothing is written

  /**
   * `updatePaymentReference`: the reference is rebuilt only when the payer CUI,
   * the total and the date fields are all non-empty strings.  `parsed` is the
   * calendar day of `new Date(paymentDate)`, `None` for an invalid date.
   */
  function UpdatePaymentReference(payerCui: string, totalAmount: string, paymentDate: string,
                                  parsed: Option<Day>, n: Suffix): (u: ReferenceUpdate)
    ensures u.Kept? <==> payerCui == [] || totalAmount == [] || paymentDate == []
    ensures u.DateError? <==> !u.Kept? && parsed.None?
    ensures u.Rewritten? ==>
              parsed.Some?
              && ParseReference(u.reference) == Some(ReferenceParts(payerCui, DateDigits(parsed.value), n))
  {
    if payerCui != [] && totalAmount != [] && paymentDate != [] then
      match parsed
      case None => DateError
      case Some(d) => Rewritten(PaymentReference(payerCui, d, n))
    else Kept
  }
}

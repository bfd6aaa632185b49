/**
 * `GET /api/report-data` (server-simple.js): read the stored records, keep
 * those created inside the requested window, and return the four analyses,
 * the general figures and the kept records themselves.
 */
module ReportData {
  import opened Results
  import opened Seqs
  import opened Records
  import opened Report
  import opened AmountStats

  /** `analyzeByPurpose`: groups by `paymentPurpose || 'necunoscut'`, labelled by `getPurposeLabel`, with sums. */
  method AnalyzeByPurpose(forms: seq<Form>) returns (a: Analysis)
    ensures a == AnalysisOf(forms, PurposeKey, AmountOf, PurposeLabel, true)
  {
    a := Analyze(forms, PurposeKey, AmountOf, PurposeLabel, true);
  }

  /** `analyzeByCurrency`: groups by `currency || 'necunoscut'`, labelled by the currency itself, with sums. */
  method AnalyzeByCurrency(forms: seq<Form>) returns (a: Analysis)
    ensures a == AnalysisOf(forms, CurrencyKey, AmountOf, CurrencyLabel, true)
  {
    a := Analyze(forms, CurrencyKey, AmountOf, CurrencyLabel, true);
  }

  /** `analyzeVAT`: groups by `vatRate || '0'`, labelled `<rate>%`, without sums. */
  method AnalyzeVat(forms: seq<Form>) returns (a: Analysis)
    ensures a == AnalysisOf(forms, VatKey, AmountOf, VatLabel, false)
  {
    a := Analyze(forms, VatKey, AmountOf, VatLabel, false);
  }

  /** Different VAT rates and different currencies never share a label, so each detail shows its own group's share. */
  lemma {:induction false} VatAndCurrencyOwnPercentages(forms: seq<Form>)
    ensures var a := AnalysisOf(forms, VatKey, AmountOf, VatLabel, false);
      forall i :: 0 <= i < |a.details| ==> a.total > 0 && a.details[i].percentage == Percent(a.data[i], a.total)
    ensures var a := AnalysisOf(forms, CurrencyKey, AmountOf, CurrencyLabel, true);
      forall i :: 0 <= i < |a.details| ==> a.total > 0 && a.details[i].percentage == Percent(a.data[i], a.total)
  {
    forall x, y | VatLabel(x) == VatLabel(y) ensures x == y {
      VatLabelInjective(x, y);
    }
    DistinctLabelsOwnPercentage(forms, VatKey, AmountOf, VatLabel, false);
    DistinctLabelsOwnPercentage(forms, CurrencyKey, AmountOf, CurrencyLabel, true);
  }

  /** A record without a purpose is counted under `necunoscut`, shown as `Necunoscut`; one without a VAT rate under `0%`. */
  lemma {:induction false} MissingKeysDefault(form: Form)
    ensures FieldOf(form, "paymentPurpose") == [] ==> PurposeKey(form) == "necunoscut" && PurposeLabel(PurposeKey(form)) == "Necunoscut"
    ensures FieldOf(form, "currency") == [] ==> CurrencyLabel(CurrencyKey(form)) == "necunoscut"
    ensures FieldOf(form, "vatRate") == [] ==> VatLabel(VatKey(form)) == "0%"
    ensures FieldOf(form, "paymentPurpose") != [] ==> PurposeKey(form) == FieldOf(form, "paymentPurpose")
  {
  }

  /** The totals in record order: `forms.map(form => parseFloat(form.totalAmount || 0))`, when all are numbers. */
  function Values(forms: seq<Form>, amountOf: Form -> Num): (xs: seq<real>)
    requires AllFinite(forms, amountOf)
    ensures |xs| == |forms|
    ensures forall i :: 0 <= i < |forms| ==> amountOf(forms[i]) == Finite(xs[i])
  {
    if forms == [] then []
    else
      assert AllFinite(forms[..|forms| - 1], amountOf);
      Values(forms[..|forms| - 1], amountOf) + [amountOf(forms[|forms| - 1]).value]
  }

  /**
   * What `analyzeAmounts` reports: the statistics when every total is a
   * number; when one is not, `min`, `max`, `average` and `total` are NaN (and
   * the median depends on where the sort leaves it), so only the count is kept.
   */
  datatype AmountAnalysis = Numeric(summary: Summary) | NotNumeric(count: nat)

  function AnalyzeAmounts(forms: seq<Form>, amountOf: Form -> Num): (r: AmountAnalysis)
    requires |forms| > 0
    ensures r.NotNumeric? <==> exists i :: 0 <= i < |forms| && amountOf(forms[i]).NaN?
    ensures r.NotNumeric? ==> r.count == |forms|
    ensures r.Numeric? ==> r.summary.count == |forms|
  {
    if AllFinite(forms, amountOf) then Numeric(Summarize(Values(forms, amountOf))) else NotNumeric(|forms|)
  }

  /** The reduce over all totals is the sum of the numbers, when all are numbers. */
  lemma {:induction false} TotalOfValues(forms: seq<Form>, amountOf: Form -> Num)
    requires AllFinite(forms, amountOf)
    ensures Total(forms, amountOf) == Finite(SumReals(Values(forms, amountOf)))
  {
    if forms != [] {
      var prefix := forms[..|forms| - 1];
      assert AllFinite(prefix, amountOf);
      TotalOfValues(prefix, amountOf);
      assert Values(forms, amountOf)[..|prefix|] == Values(prefix, amountOf);
    }
  }

  /** One total that is not a number makes the reduce NaN. */
  lemma {:induction false} TotalNaN(forms: seq<Form>, amountOf: Form -> Num, i: nat)
    requires i < |forms| && amountOf(forms[i]).NaN?
    ensures Total(forms, amountOf).NaN?
  {
    var prefix := forms[..|forms| - 1];
    if i < |prefix| {
      assert prefix[i] == forms[i];
      TotalNaN(prefix, amountOf, i);
    }
  }

  /** `generalStats`: the record count, the sum of the totals, their average, and the first and last creation times. */
  datatype GeneralStats = GeneralStats(totalForms: nat, totalAmount: Num, averageAmount: Num, from: int, to: int)

  /** The average is NaN exactly when the total is, and otherwise times the count gives the total. */
  function GeneralStatsOf(forms: seq<Form>, amountOf: Form -> Num): (g: GeneralStats)
    requires |forms| > 0
    ensures g.totalForms == |forms|
    ensures g.averageAmount.NaN? <==> g.totalAmount.NaN?
    ensures g.totalAmount.Finite? ==> g.averageAmount.value * |forms| as real == g.totalAmount.value
  {
    var total := Total(forms, amountOf);
    GeneralStats(|forms|, total, total.Over(|forms|), forms[0].createdAt, forms[|forms| - 1].createdAt)
  }

  /**
   * The general figures agree with the amount statistics: the same count,
   * and the same sum and average when every total is a number, NaN otherwise.
   * The date range is that of the first and last record as stored, which
   * need not be the earliest and latest.
   */
  lemma {:induction false} GeneralMatchesAmounts(forms: seq<Form>, amountOf: Form -> Num)
    requires |forms| > 0
    ensures var g := GeneralStatsOf(forms, amountOf); var a := AnalyzeAmounts(forms, amountOf);
      && g.totalForms == |forms|
      && (a.Numeric? ==> g.totalAmount == Finite(a.summary.total) && g.averageAmount == Finite(a.summary.average))
      && (a.NotNumeric? ==> g.totalAmount.NaN? && g.averageAmount.NaN?)
      && g.from == forms[0].createdAt && g.to == forms[|forms| - 1].createdAt
  {
    if AllFinite(forms, amountOf) {
      TotalOfValues(forms, amountOf);
      var xs := Values(forms, amountOf);
      SummaryBounds(xs);
    } else {
      var i :| 0 <= i < |forms| && amountOf(forms[i]).NaN?;
      TotalNaN(forms, amountOf, i);
    }
  }

  /** The groups of an analysis with sums add up to the general figures: counts to the record count, sums to the total. */
  lemma {:induction false} GeneralMatchesGroups(forms: seq<Form>, keyOf: Form -> string, amountOf: Form -> Num,
                                                labelOf: string -> string)
    requires |forms| > 0
    ensures var g := GeneralStatsOf(forms, amountOf); var a := AnalysisOf(forms, keyOf, amountOf, labelOf, true);
      && SumNats(a.data) == g.totalForms
      && (AllFinite(forms, amountOf) ==> a.amounts.Some? && SumNums(a.amounts.value) == g.totalAmount)
  {
    CountsSumToTotal(forms, keyOf, amountOf, labelOf, true);
    if AllFinite(forms, amountOf) {
      AmountsSumToTotal(forms, keyOf, amountOf, labelOf);
    }
  }

  /** Why the report has nothing to show. */
  datatype ReportError =
    | NoData          // 404: the store could not be read
    | NoDataInPeriod  // 404: no record inside the window

  /** The `data` of a successful reply. */
  datatype ReportBody = ReportBody(purposeAnalysis: Analysis, currencyAnalysis: Analysis, amountAnalysis: AmountAnalysis,
                                   vatAnalysis: Analysis, generalStats: GeneralStats, rawData: seq<Form>)

  /**
   * The handler.  `stored` is the parsed store (None when it cannot be read);
   * `from` and `to` are the parsed `dateFrom` and `dateTo`, `to` already moved
   * to the last millisecond of its day.
   */
  method BuildReport(stored: Option<seq<Form>>, from: DateBound, to: DateBound) returns (r: Result<ReportBody, ReportError>)
    ensures stored.None? ==> r == Err(NoData)
    ensures stored.Some? ==> (r.Err? <==> FilterWindow(stored.value, from, to) == [])
    ensures stored.Some? && r.Err? ==> r.error == NoDataInPeriod
    ensures r.Ok? ==> stored.Some?
    ensures r.Ok? ==>
      var forms := FilterWindow(stored.value, from, to);
      && |forms| > 0
      && r.value == ReportBody(AnalysisOf(forms, PurposeKey, AmountOf, PurposeLabel, true),
                               AnalysisOf(forms, CurrencyKey, AmountOf, CurrencyLabel, true),
                               AnalyzeAmounts(forms, AmountOf),
                               AnalysisOf(forms, VatKey, AmountOf, VatLabel, false),
                               GeneralStatsOf(forms, AmountOf),
                               forms)
  {
    if stored.None? {
      return Err(NoData);
    }
    var forms := FilterWindow(stored.value, from, to);
    if |forms| == 0 {
      return Err(NoDataInPeriod);
    }
    var purpose := AnalyzeByPurpose(forms);
    var currency := AnalyzeByCurrency(forms);
    var amounts := AnalyzeAmounts(forms, AmountOf);
    var vat := AnalyzeVat(forms);
    var general := GeneralStatsOf(forms, AmountOf);
    r := Ok(ReportBody(purpose, currency, amounts, vat, general, forms));
  }

  /**
   * The records reported are exactly the stored records inside the window,
   * in stored order; the report fails with "no data in period" exactly when
   * there are none, so an invalid date bound always makes it fail.
   */
  lemma {:induction false} ReportedRecords(stored: seq<Form>, from: DateBound, to: DateBound)
    ensures FilterWindow(stored, from, to) == Filter(Window(from, to), stored)
    ensures forall f :: f in FilterWindow(stored, from, to) <==> f in stored && InWindow(f, from, to)
    ensures from.Invalid? || to.Invalid? ==> FilterWindow(stored, from, to) == []
  {
    WindowIsOneFilter(stored, from, to);
    if from.Invalid? || to.Invalid? {
      InvalidBoundKeepsNothing(stored, from, to);
    }
    var w := Filter(Window(from, to), stored);
    forall f | f in w ensures f in stored && InWindow(f, from, to) {
      var i :| 0 <= i < |w| && w[i] == f;
    }
    forall f | f in stored && InWindow(f, from, to) ensures f in w {
      var i :| 0 <= i < |stored| && stored[i] == f;
    }
  }
}

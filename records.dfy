/**
 * The payment-order records the server keeps in its JSON file
 * (server-simple.js, and the identical handlers of HW1/server-simple.js), and
 * the readings of their fields that the handlers share: the posted total as a
 * number, the grouping keys and labels of the report, and the creation-date
 * window of the listing and the report.
 */
module Records {
  import opened Results
  import opened JsText
  import opened Seqs

  /** `Date.now()` at submission, or the posted `id` text, which the record spread lets win. */
  datatype FormId = NumId(ms: nat) | TextId(text: string)

  /** What is kept of an uploaded attachment. */
  datatype FileInfo = FileInfo(filename: string, originalName: string, size: nat)

  /**
   * A stored record.  `fields` holds the posted text fields other than the
   * six names the record sets itself.  Times are milliseconds since the epoch:
   * the ISO strings the server stores denote them exactly.
   */
  datatype Form = Form(id: FormId, reference: string, fields: map<string, string>,
                       files: seq<FileInfo>, status: string, createdAt: int, updatedAt: int)

  /** A posted field; a missing one reads as "", which every test below treats alike (both are falsy). */
  function FieldOf(form: Form, name: string): string {
    if name in form.fields then form.fields[name] else ""
  }

  /** `value || fallback` for a text value. */
  function OrElse(value: string, fallback: string): string {
    if value == [] then fallback else value
  }

  /** A number as the report meets it: finite, or NaN (`parseFloat` of text without a number). */
  datatype Num = Finite(value: real) | NaN {
    /** `+`: NaN is contagious. */
    function Plus(other: Num): Num {
      if Finite? && other.Finite? then Finite(value + other.value) else NaN
    }

    /** `x / n` for a positive count `n`. */
    function Over(n: nat): Num
      requires n > 0
    {
      if NaN? then NaN else Finite(value / n as real)
    }

    /** `x || 0`: NaN becomes 0 (and 0 stays 0). */
    function OrZero(): Num {
      if NaN? then Finite(0.0) else this
    }
  }

  /** `parseFloat(form.totalAmount || 0)`: an absent or empty total counts as 0. */
  function AmountOf(form: Form): (r: Num)
    ensures r.NaN? <==> FieldOf(form, "totalAmount") != [] && ParseFloat(FieldOf(form, "totalAmount")).None?
    ensures r.Finite? && FieldOf(form, "totalAmount") != [] ==> ParseFloat(FieldOf(form, "totalAmount")) == Some(r.value)
  {
    var total := FieldOf(form, "totalAmount");
    if total == [] then Finite(0.0)
    else match ParseFloat(total)
      case None => NaN
      case Some(v) => Finite(v)
  }

  /** An empty total reads as 0, but a total of blanks is not a number. */
  lemma {:induction false} AmountOfEmptyOrBlank(form: Form)
    requires IsBlank(FieldOf(form, "totalAmount"))
    ensures AmountOf(form) == if FieldOf(form, "totalAmount") == [] then Finite(0.0) else NaN
  {
    if FieldOf(form, "totalAmount") != [] {
      ParseFloatBlank(FieldOf(form, "totalAmount"));
    }
  }

  /** A total written as a plain decimal numeral reads back as that number. */
  lemma {:induction false} AmountOfDecimal(form: Form, n: nat)
    requires FieldOf(form, "totalAmount") == NatToDecimal(n)
    ensures AmountOf(form) == Finite(n as real)
  {
    ParseFloatOfDecimal(n);
  }

  /** The grouping key of the purpose analysis: `paymentPurpose || 'necunoscut'`. */
  function PurposeKey(form: Form): string {
    OrElse(FieldOf(form, "paymentPurpose"), "necunoscut")
  }

  /** The grouping key of the currency analysis: `currency || 'necunoscut'`. */
  function CurrencyKey(form: Form): string {
    OrElse(FieldOf(form, "currency"), "necunoscut")
  }

  /** The grouping key of the VAT analysis: `vatRate || '0'`. */
  function VatKey(form: Form): string {
    OrElse(FieldOf(form, "vatRate"), "0")
  }

  /** `getPurposeLabel`'s table. */
  const PurposeLabels: map<string, string> := map[
    "taxe" := "Taxe \U{0219}i impozite",
    "amenzi" := "Amenzi",
    "servicii" := "Servicii publice",
    "alte" := "Alte pl\U{0103}\U{021B}i",
    "necunoscut" := "Necunoscut"
  ]

  /**
   * `getPurposeLabel`: `labels[purpose] || purpose`.  A code in the table gets
   * its label, any other code is its own label; as every label in the table is
   * non-empty, the label is empty only for an empty code.
   */
  function PurposeLabel(purpose: string): (shown: string)
    ensures purpose in PurposeLabels ==> shown == PurposeLabels[purpose]
    ensures purpose !in PurposeLabels ==> shown == purpose
    ensures shown == [] <==> purpose == []
  {
    if purpose in PurposeLabels then PurposeLabels[purpose] else purpose
  }

  /**
   * Two different purpose codes can share a label: a code outside the table
   * is its own label, so the code `Amenzi` is labelled like `amenzi`.
   */
  lemma {:induction false} PurposeLabelsCollide(code: string)
    requires code in PurposeLabels && PurposeLabels[code] !in PurposeLabels
    ensures PurposeLabel(PurposeLabels[code]) == PurposeLabel(code)
    ensures PurposeLabels[code] != code
  {
  }

  /** The label of the VAT analysis: `` `${vatRate}%` ``. */
  function VatLabel(rate: string): string {
    rate + "%"
  }

  /** Different rates get different labels. */
  lemma {:induction false} VatLabelInjective(a: string, b: string)
    requires VatLabel(a) == VatLabel(b)
    ensures a == b
  {
    assert a == VatLabel(a)[..|a|];
    assert b == VatLabel(b)[..|b|];
  }

  /** The label of the currency analysis is the currency itself. */
  function CurrencyLabel(currency: string): string {
    currency
  }

  /** A `dateFrom`/`dateTo` query value: absent or empty, an invalid date, or an instant. */
  datatype DateBound = Unset | Invalid | At(ms: int)

  /** `new Date(f.createdAt) >= fromDate`; a comparison with an invalid date is false. */
  function NotBefore(from: DateBound): Form -> bool {
    (f: Form) => from.At? && f.createdAt >= from.ms
  }

  /** `new Date(f.createdAt) <= toDate`; `toDate` is already moved to the end of its day. */
  function NotAfter(to: DateBound): Form -> bool {
    (f: Form) => to.At? && f.createdAt <= to.ms
  }

  /** The two date filters, each applied only when its query value is given. */
  function FilterWindow(forms: seq<Form>, from: DateBound, to: DateBound): (r: seq<Form>)
    ensures forall i :: 0 <= i < |r| ==> r[i] in forms && InWindow(r[i], from, to)
  {
    var kept := if from.Unset? then forms else Filter(NotBefore(from), forms);
    if to.Unset? then kept else Filter(NotAfter(to), kept)
  }

  /** Whether a record lies in the window; an unset bound does not restrict. */
  predicate InWindow(f: Form, from: DateBound, to: DateBound) {
    (from.Unset? || NotBefore(from)(f)) && (to.Unset? || NotAfter(to)(f))
  }

  function Window(from: DateBound, to: DateBound): Form -> bool {
    (f: Form) => InWindow(f, from, to)
  }

  /** The two filters in a row keep exactly the records in the window, in their order. */
  lemma {:induction false} WindowIsOneFilter(forms: seq<Form>, from: DateBound, to: DateBound)
    ensures FilterWindow(forms, from, to) == Filter(Window(from, to), forms)
  {
    if from.Unset? && to.Unset? {
      FilterAll(Window(from, to), forms);
    } else if from.Unset? {
      FilterExt(NotAfter(to), Window(from, to), forms);
    } else if to.Unset? {
      FilterExt(NotBefore(from), Window(from, to), forms);
    } else {
      FilterFilter(NotBefore(from), NotAfter(to), forms);
      FilterExt(Both(NotBefore(from), NotAfter(to)), Window(from, to), forms);
    }
  }

  /** An invalid bound keeps nothing. */
  lemma {:induction false} InvalidBoundKeepsNothing(forms: seq<Form>, from: DateBound, to: DateBound)
    requires from.Invalid? || to.Invalid?
    ensures FilterWindow(forms, from, to) == []
  {
    WindowIsOneFilter(forms, from, to);
    FilterNone(Window(from, to), forms);
  }
}

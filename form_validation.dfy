/**
 * Client-side validation of a payment order (electronic-forms-system/script.js):
 * the CUI and IBAN format checks, the "empty is not a format error" wrappers,
 * the required-field check and `validateForm`, which accumulates every
 * violation and decides which field messages are left on the page.
 */
module FormValidation {
  import opened Results
  import opened JsText
  import opened Seqs

  /** `isValidCUI`: the whole value matches `^\d{2,10}$`. */
  function IsValidCui(cui: string): (ok: bool)
    ensures ok <==> 2 <= |cui| <= 10 && AllDigits(cui)
  {
    var n := DigitRun(cui);
    DigitRunCoversAll(cui);
    n == |cui| && 2 <= n <= 10
  }

  lemma {:induction false} DigitRunCoversAll(s: string)
    ensures DigitRun(s) == |s| <==> AllDigits(s)
  {
    if AllDigits(s) {
      DigitRunAll(s);
    }
    assert DigitRun(s) == |s| ==> s[..DigitRun(s)] == s;
  }

  /** One character of the account part of a Romanian IBAN: `[A-Z0-9]`. */
  predicate IsIbanBodyChar(c: char) {
    IsUpperAscii(c) || IsDigit(c)
  }

  /** Length of the run of `[A-Z0-9]` characters at the start of `s`. */
  function IbanBodyRun(s: string): (n: nat)
    ensures n <= |s|
    ensures forall i :: 0 <= i < n ==> IsIbanBodyChar(s[i])
    ensures n < |s| ==> !IsIbanBodyChar(s[n])
  {
    if s != [] && IsIbanBodyChar(s[0]) then 1 + IbanBodyRun(s[1..]) else 0
  }

  /** What `isValidIBAN` tests: whitespace removed, then upper-cased. */
  function NormalizeIban(iban: string): string {
    ToUpper(RemoveWhitespace(iban))
  }

  /**
   * `isValidIBAN`: after normalisation the value is 24 characters, starts with
   * `RO`, continues with two digits (`^RO\d{2}`) and ends with twenty
   * characters from `[A-Z0-9]` (`^RO\d{2}[A-Z0-9]{20}$`).  The ISO 7064 mod-97
   * check digits are not verified.
   */
  function IsValidIban(iban: string): (ok: bool)
    ensures ok <==>
      var c := NormalizeIban(iban);
      && |c| == 24 && c[0] == 'R' && c[1] == 'O' && IsDigit(c[2]) && IsDigit(c[3])
      && forall i :: 4 <= i < 24 ==> IsIbanBodyChar(c[i])
  {
    var clean := NormalizeIban(iban);
    if |clean| != 24 then false
    else if clean[..2] != "RO" then false
    else if DigitRun(clean[2..]) < 2 then false
    else
      var n := IbanBodyRun(clean[4..]);
      assert forall i :: 4 <= i < 24 ==> clean[i] == clean[4..][i - 4];
      n == 20
  }

  /** `validateCUI`: a value that is empty after `trim()` passes; otherwise the trimmed value must be a CUI. */
  function ValidateCui(value: string): (ok: bool)
    ensures ok <==> IsBlank(value) || IsValidCui(Trim(value))
  {
    var cui := Trim(value);
    !(cui != [] && !IsValidCui(cui))
  }

  /** `validateIBAN`: trimmed and stripped of whitespace; an empty result passes. */
  function ValidateIban(value: string): (ok: bool)
    ensures ok <==> IsBlank(value) || IsValidIban(value)
  {
    var iban := RemoveWhitespace(Trim(value));
    StripTrimmed(value);
    RemoveWhitespaceEmptyIffBlank(value);
    IbanPrestripHarmless(value);
    !(iban != [] && !IsValidIban(iban))
  }

  /** Removing the whitespace of the trimmed value is removing the whitespace of the value. */
  lemma {:induction false} StripTrimmed(value: string)
    ensures RemoveWhitespace(Trim(value)) == RemoveWhitespace(value)
  {
    assert Trim(value) == TrimEnd(TrimStart(value));
    StripTrimStart(value);
    StripTrimEnd(TrimStart(value));
  }

  lemma {:induction false} StripTrimStart(s: string)
    ensures RemoveWhitespace(TrimStart(s)) == RemoveWhitespace(s)
  {
    if s != [] && IsJsSpace(s[0]) {
      StripTrimStart(s[1..]);
      assert TrimStart(s) == TrimStart(s[1..]);
    }
  }

  lemma {:induction false} StripTrimEnd(s: string)
    ensures RemoveWhitespace(TrimEnd(s)) == RemoveWhitespace(s)
  {
    if s != [] && IsJsSpace(s[|s| - 1]) {
      var init := s[..|s| - 1];
      StripTrimEnd(init);
      assert TrimEnd(s) == TrimEnd(init);
      assert s == init + [s[|s| - 1]];
      RemoveWhitespaceAppend(init, [s[|s| - 1]]);
      assert RemoveWhitespace([s[|s| - 1]]) == RemoveWhitespace([]);
    } else {
      assert TrailingSpaces(s) == 0;
      assert TrimEnd(s) == s;
    }
  }

  /** Stripping whitespace before `isValidIBAN` strips it again does not change its verdict. */
  lemma {:induction false} IbanPrestripHarmless(value: string)
    ensures IsValidIban(RemoveWhitespace(value)) == IsValidIban(value)
  {
    RemoveWhitespaceKeeps(RemoveWhitespace(value));
  }

  /** Normalising first does not change the verdict: lower case and spaced input is judged like its upper-case, unspaced form. */
  lemma {:induction false} IbanNormalizationIdempotent(iban: string)
    ensures IsValidIban(NormalizeIban(iban)) == IsValidIban(iban)
  {
    var r := RemoveWhitespace(iban);
    ToUpperNoSpace(r);
    RemoveWhitespaceKeeps(ToUpper(r));
    ToUpperIdempotent(r);
  }

  /** Whitespace anywhere in the value, the grouping spaces of the printed form included, does not change the verdict. */
  lemma {:induction false} IbanIgnoresWhitespace(a: string, w: string, b: string)
    requires IsBlank(w)
    ensures IsValidIban(a + w + b) == IsValidIban(a + b)
  {
    RemoveWhitespaceAppend(a + w, b);
    RemoveWhitespaceAppend(a, w);
    RemoveWhitespaceAppend(a, b);
    RemoveWhitespaceEmptyIffBlank(w);
    assert RemoveWhitespace(a + w) == RemoveWhitespace(a) + [] == RemoveWhitespace(a);
    assert RemoveWhitespace(a + w + b) == RemoveWhitespace(a + b);
    assert NormalizeIban(a + w + b) == NormalizeIban(a + b);
  }

  /** Lower-case input is judged like its upper-case form. */
  lemma {:induction false} IbanIgnoresCase(s: string)
    ensures IsValidIban(ToUpper(s)) == IsValidIban(s)
  {
    RemoveWhitespaceToUpperCommute(s);
    ToUpperIdempotent(RemoveWhitespace(s));
    assert NormalizeIban(ToUpper(s)) == NormalizeIban(s);
  }

  /** `validateField`: the value is not blank after `trim()`. */
  function ValidateField(value: string): (ok: bool)
    ensures ok <==> !IsBlank(value)
  {
    Trim(value) != []
  }

  /** The amount rule of `validateForm`: it fires only when `baseAmount` parses to a number <= 0. */
  predicate AmountNotPositive(baseAmount: string) {
    var v := ParseFloat(baseAmount);
    v.Some? && v.value <= 0.0
  }

  /** The fields the form validates. */
  datatype Field =
    | PayerName | PayerCui | PayerAddress | PayerPhone
    | BeneficiaryName | BeneficiaryCui | BeneficiaryAddress | BeneficiaryAccount
    | PaymentDate | PaymentPurpose | BaseAmount

  /** The message a field shows after validation. */
  datatype Message = Required | InvalidCui | InvalidIban | NotPositive

  /** The text of the form's inputs. */
  datatype PaymentForm = PaymentForm(
    payerName: string, payerCui: string, payerAddress: string, payerPhone: string,
    beneficiaryName: string, beneficiaryCui: string, beneficiaryAddress: string,
    beneficiaryAccount: string, paymentDate: string, paymentPurpose: string,
    baseAmount: string, currency: string, vatRate: string, taxRate: string)

  function Value(form: PaymentForm, f: Field): string {
    match f
    case PayerName => form.payerName
    case PayerCui => form.payerCui
    case PayerAddress => form.payerAddress
    case PayerPhone => form.payerPhone
    case BeneficiaryName => form.beneficiaryName
    case BeneficiaryCui => form.beneficiaryCui
    case BeneficiaryAddress => form.beneficiaryAddress
    case BeneficiaryAccount => form.beneficiaryAccount
    case PaymentDate => form.paymentDate
    case PaymentPurpose => form.paymentPurpose
    case BaseAmount => form.baseAmount
  }

  /** The eleven required fields, in the order `validateForm` visits them. */
  const RequiredFields: seq<Field> := [
    PayerName, PayerCui, PayerAddress, PayerPhone,
    BeneficiaryName, BeneficiaryCui, BeneficiaryAddress, BeneficiaryAccount,
    PaymentDate, PaymentPurpose, BaseAmount]

  lemma {:induction false} RequiredFieldsCoverAll(f: Field)
    ensures f in RequiredFields
  {
  }

  /** `validateForm` returns true exactly when no rule is violated. */
  predicate FormAccepted(form: PaymentForm) {
    && (forall f :: f in RequiredFields ==> !IsBlank(Value(form, f)))
    && ValidateCui(form.payerCui) && ValidateCui(form.beneficiaryCui)
    && ValidateIban(form.beneficiaryAccount)
    && !AmountNotPositive(form.baseAmount)
  }

  /** The outcome of each check `validateForm` runs. */
  datatype Verdicts = Verdicts(
    blank: set<Field>, payerCuiOk: bool, beneficiaryCuiOk: bool, ibanOk: bool, amountNotPositive: bool)

  /** The fields among `visited` whose value is blank. */
  function BlankAmong(form: PaymentForm, visited: seq<Field>): set<Field> {
    set f | f in visited && IsBlank(Value(form, f))
  }

  function VerdictsOf(form: PaymentForm): Verdicts {
    Verdicts(BlankAmong(form, RequiredFields),
      ValidateCui(form.payerCui), ValidateCui(form.beneficiaryCui),
      ValidateIban(form.beneficiaryAccount), AmountNotPositive(form.baseAmount))
  }

  predicate Accepted(v: Verdicts) {
    v.blank == {} && v.payerCuiOk && v.beneficiaryCuiOk && v.ibanOk && !v.amountNotPositive
  }

  lemma {:induction false} AcceptedOfVerdicts(form: PaymentForm)
    ensures FormAccepted(form) <==> Accepted(VerdictsOf(form))
  {
    var b := BlankAmong(form, RequiredFields);
    if b != {} {
      var f :| f in b;
      BlankAmongMember(form, RequiredFields, f);
    } else {
      forall f | f in RequiredFields ensures !IsBlank(Value(form, f)) {
        BlankAmongMember(form, RequiredFields, f);
      }
    }
  }

  lemma {:induction false} BlankAmongMember(form: PaymentForm, visited: seq<Field>, f: Field)
    ensures f in BlankAmong(form, visited) <==> f in visited && IsBlank(Value(form, f))
  {
  }

  /**
   * The message each field is left showing after `validateForm`, as the source
   * orders its calls: every field first gets the required check, which shows
   * or clears its message; the CUI and IBAN checks then clear the message of a
   * field they accept, a blank one included; the beneficiary CUI is checked
   * only when the payer CUI passes; the amount rule overrides the last field.
   */
  function ShownFor(v: Verdicts, f: Field): Option<Message> {
    var blank := f in v.blank;
    match f
    case PayerCui =>
      if v.payerCuiOk then None else Some(InvalidCui)
    case BeneficiaryCui =>
      if !v.payerCuiOk then (if blank then Some(Required) else None)
      else if v.beneficiaryCuiOk then None else Some(InvalidCui)
    case BeneficiaryAccount =>
      if v.ibanOk then None else Some(InvalidIban)
    case BaseAmount =>
      if v.amountNotPositive then Some(NotPositive)
      else if blank then Some(Required) else None
    case _ =>
      if blank then Some(Required) else None
  }

  function ShownMessages(v: Verdicts): map<Field, Message> {
    map f | f in RequiredFields && ShownFor(v, f).Some? :: ShownFor(v, f).value
  }

  /** "This field is required" on every field of `b`. */
  function Flagged(b: set<Field>): map<Field, Message> {
    map f | f in b :: Required
  }

  /** Shows `m` on field `f` when `fails`, clears the field otherwise. */
  function Mark(shown: map<Field, Message>, f: Field, fails: bool, m: Message): map<Field, Message> {
    if fails then shown[f := m] else shown - {f}
  }

  /** What the required-field loop has built so far: the verdict and the messages on the page. */
  datatype RequiredState = RequiredState(allPresent: bool, shown: map<Field, Message>)

  /** Whether the required check finds a field of `form` missing: `validateField` rejects its value. */
  function Missing(form: PaymentForm): Field -> bool {
    f => !ValidateField(Value(form, f))
  }

  /** The fields among `visited` that `missing` picks out. */
  function Among(missing: Field -> bool, visited: seq<Field>): set<Field> {
    set f | f in visited && missing(f)
  }

  /** The missing fields are exactly the blank ones. */
  lemma {:induction false} MissingIsBlank(form: PaymentForm, visited: seq<Field>)
    ensures Among(Missing(form), visited) == BlankAmong(form, visited)
  {
    forall f ensures Missing(form)(f) <==> IsBlank(Value(form, f)) {
      var ok := ValidateField(Value(form, f));
    }
  }

  /** The loop's state after checking `visited` in order: each field shows or clears its own message. */
  function RequiredPass(missing: Field -> bool, visited: seq<Field>): RequiredState {
    if visited == [] then RequiredState(true, map[])
    else
      var before := RequiredPass(missing, visited[..|visited| - 1]);
      var f := visited[|visited| - 1];
      RequiredState(before.allPresent && !missing(f), Mark(before.shown, f, missing(f), Required))
  }

  /** One more visited field joins the missing ones exactly when it is missing, and the required check marks it accordingly. */
  lemma {:induction false} VisitOneMore(missing: Field -> bool, visited: seq<Field>, f: Field)
    ensures Among(missing, visited + [f])
      == if missing(f) then Among(missing, visited) + {f} else Among(missing, visited)
    ensures Mark(Flagged(Among(missing, visited)), f, missing(f), Required)
      == Flagged(Among(missing, visited + [f]))
  {
    var b := Among(missing, visited);
    if !missing(f) {
      assert f !in b;
      assert Flagged(b) - {f} == Flagged(b);
    }
  }

  /** After any prefix of fields, the verdict says whether none of them was missing. */
  lemma {:induction false} RequiredPassVerdict(missing: Field -> bool, visited: seq<Field>)
    ensures RequiredPass(missing, visited).allPresent <==> Among(missing, visited) == {}
  {
    if visited != [] {
      var init, f := visited[..|visited| - 1], visited[|visited| - 1];
      RequiredPassVerdict(missing, init);
      assert init + [f] == visited;
      VisitOneMore(missing, init, f);
    }
  }

  /** After any prefix of fields, exactly the missing ones show the required message. */
  lemma {:induction false} RequiredPassMessages(missing: Field -> bool, visited: seq<Field>)
    ensures RequiredPass(missing, visited).shown == Flagged(Among(missing, visited))
  {
    if visited != [] {
      var init, f := visited[..|visited| - 1], visited[|visited| - 1];
      RequiredPassMessages(missing, init);
      assert init + [f] == visited;
      VisitOneMore(missing, init, f);
    }
  }

  lemma {:induction false} RequiredPassSnoc(missing: Field -> bool, fields: seq<Field>, i: nat)
    requires i < |fields|
    ensures var before := RequiredPass(missing, fields[..i]);
      RequiredPass(missing, fields[..i + 1])
        == RequiredState(before.allPresent && !missing(fields[i]), Mark(before.shown, fields[i], missing(fields[i]), Required))
  {
    assert fields[..i + 1][..i] == fields[..i];
  }

  /** The loop of `validateForm` over the required fields: each one is checked, none skipped. */
  method CheckRequiredFields(form: PaymentForm, fields: seq<Field>) returns (allPresent: bool, shown: map<Field, Message>)
    ensures RequiredState(allPresent, shown) == RequiredPass(Missing(form), fields)
  {
    allPresent := true;
    shown := map[];
    var i := 0;
    while i < |fields|
      invariant 0 <= i <= |fields|
      invariant RequiredState(allPresent, shown) == RequiredPass(Missing(form), fields[..i])
    {
      var f := fields[i];
      var present := ValidateField(Value(form, f));
      RequiredPassSnoc(Missing(form), fields, i);
      assert !present == Missing(form)(f);
      shown := Mark(shown, f, !present, Required);
      if !present {
        allPresent := false;
      }
      i := i + 1;
    }
    assert fields[..i] == fields;
  }

  /**
   * `validateForm`: every required field is checked (no short-circuit), then
   * `!validateCUI(payer) || !validateCUI(beneficiary)`, then the IBAN, then the
   * amount.  Returns the verdict and the field messages left on the page.
   */
  method ValidateForm(form: PaymentForm) returns (valid: bool, shown: map<Field, Message>)
    ensures valid <==> FormAccepted(form)
    ensures shown == ShownMessages(VerdictsOf(form))
  {
    valid, shown := CheckRequiredFields(form, RequiredFields);
    ghost var v := VerdictsOf(form);
    RequiredPassVerdict(Missing(form), RequiredFields);
    RequiredPassMessages(Missing(form), RequiredFields);
    MissingIsBlank(form, RequiredFields);
    assert shown == Flagged(v.blank);

    var payerOk := ValidateCui(form.payerCui);
    assert payerOk == v.payerCuiOk;
    shown := Mark(shown, PayerCui, !payerOk, InvalidCui);
    ghost var afterPayer := shown;
    assert afterPayer == Mark(Flagged(v.blank), PayerCui, !v.payerCuiOk, InvalidCui);
    if !payerOk {
      valid := false;
    } else {
      var beneficiaryOk := ValidateCui(form.beneficiaryCui);
      assert beneficiaryOk == v.beneficiaryCuiOk;
      shown := Mark(shown, BeneficiaryCui, !beneficiaryOk, InvalidCui);
      if !beneficiaryOk {
        valid := false;
      }
    }
    ghost var afterCui := shown;
    assert afterCui == if v.payerCuiOk then Mark(afterPayer, BeneficiaryCui, !v.beneficiaryCuiOk, InvalidCui)
      else afterPayer;

    var ibanOk := ValidateIban(form.beneficiaryAccount);
    assert ibanOk == v.ibanOk;
    shown := Mark(shown, BeneficiaryAccount, !ibanOk, InvalidIban);
    if !ibanOk {
      valid := false;
    }
    assert shown == Mark(afterCui, BeneficiaryAccount, !v.ibanOk, InvalidIban);
    assert shown == DisplayAfterIban(v);

    var base := ParseFloat(form.baseAmount);
    if base.Some? && base.value <= 0.0 {
      shown := shown[BaseAmount := NotPositive];
      valid := false;
    }
    assert base.Some? && base.value <= 0.0 <==> v.amountNotPositive;

    AcceptedOfVerdicts(form);
    DisplayAfterChecksIsShown(v);
  }

  /** The messages after the required-field loop and the CUI, IBAN and amount checks, applied in the source's order. */
  function DisplayAfterChecks(v: Verdicts): map<Field, Message> {
    var afterIban := DisplayAfterIban(v);
    if v.amountNotPositive then afterIban[BaseAmount := NotPositive] else afterIban
  }

  /** The messages after the required-field loop and the CUI and IBAN checks. */
  function DisplayAfterIban(v: Verdicts): map<Field, Message> {
    var afterPayer := Mark(Flagged(v.blank), PayerCui, !v.payerCuiOk, InvalidCui);
    var afterCui :=
      if v.payerCuiOk then Mark(afterPayer, BeneficiaryCui, !v.beneficiaryCuiOk, InvalidCui)
      else afterPayer;
    Mark(afterCui, BeneficiaryAccount, !v.ibanOk, InvalidIban)
  }

  lemma {:induction false} DisplayAfterChecksIsShown(v: Verdicts)
    ensures DisplayAfterChecks(v) == ShownMessages(v)
  {
    var d, s := DisplayAfterChecks(v), ShownMessages(v);
    forall f ensures (f in d <==> f in s) && (f in d ==> d[f] == s[f]) {
      DisplayAfterChecksAt(v, f);
    }
    assert d.Keys == s.Keys;
  }

  lemma {:induction false} DisplayAfterChecksAt(v: Verdicts, f: Field)
    ensures f in DisplayAfterChecks(v) <==> ShownFor(v, f).Some?
    ensures f in DisplayAfterChecks(v) ==> DisplayAfterChecks(v)[f] == ShownFor(v, f).value
  {
    var fl := Flagged(v.blank);
    assert f in fl <==> f in v.blank;
    assert f in fl ==> fl[f] == Required;
  }

  /** A field the page marks always comes with a rejected form. */
  lemma {:induction false} ShownMeansRejected(v: Verdicts, f: Field)
    requires f in ShownMessages(v)
    ensures !Accepted(v)
  {
  }

  /**
   * As written, a form can be rejected with no field message (only the
   * general error status): exactly when every check but the required one
   * passes and the only blank fields are among the two CUIs and the account,
   * whose format checks clear it.
   */
  lemma {:induction false} SilentRejection(v: Verdicts)
    ensures (!Accepted(v) && ShownMessages(v) == map[])
        <==> (&& v.payerCuiOk && v.beneficiaryCuiOk && v.ibanOk && !v.amountNotPositive
              && v.blank != {} && v.blank <= {PayerCui, BeneficiaryCui, BeneficiaryAccount})
  {
    var s := ShownMessages(v);
    var quiet := v.payerCuiOk && v.beneficiaryCuiOk && v.ibanOk && !v.amountNotPositive
      && v.blank <= {PayerCui, BeneficiaryCui, BeneficiaryAccount};
    if quiet {
      forall f | f in RequiredFields ensures ShownFor(v, f).None? {
      }
      assert s == map[];
    } else if s == map[] {
      forall f ensures ShownFor(v, f).None? {
        RequiredFieldsCoverAll(f);
        assert f !in s;
      }
      assert ShownFor(v, PayerCui).None? && ShownFor(v, BeneficiaryCui).None?;
      assert ShownFor(v, BeneficiaryAccount).None? && ShownFor(v, BaseAmount).None?;
      forall f | f in v.blank ensures f in {PayerCui, BeneficiaryCui, BeneficiaryAccount} {
        assert ShownFor(v, f).None?;
      }
    }
  }

  /**
   * The display the checks evidently intend: a CUI or IBAN check that accepts
   * a blank value leaves that field's "required" message in place.
   */
  function IntendedFor(v: Verdicts, f: Field): Option<Message> {
    var blank := f in v.blank;
    match f
    case PayerCui =>
      if !v.payerCuiOk then Some(InvalidCui)
      else if blank then Some(Required) else None
    case BeneficiaryCui =>
      if v.payerCuiOk && !v.beneficiaryCuiOk then Some(InvalidCui)
      else if blank then Some(Required) else None
    case BeneficiaryAccount =>
      if !v.ibanOk then Some(InvalidIban)
      else if blank then Some(Required) else None
    case BaseAmount =>
      if v.amountNotPositive then Some(NotPositive)
      else if blank then Some(Required) else None
    case _ =>
      if blank then Some(Required) else None
  }

  function IntendedMessages(v: Verdicts): map<Field, Message> {
    map f | f in RequiredFields && IntendedFor(v, f).Some? :: IntendedFor(v, f).value
  }

  /** With the intended display, a form is rejected exactly when some field shows a message, and every blank field shows one. */
  lemma {:induction false} IntendedMessagesExplainRejection(v: Verdicts)
    ensures !Accepted(v) <==> IntendedMessages(v) != map[]
    ensures forall f :: f in v.blank ==> f in IntendedMessages(v)
  {
    var m := IntendedMessages(v);
    forall f | f in v.blank ensures f in m {
      RequiredFieldsCoverAll(f);
    }
    if !Accepted(v) {
      if v.blank != {} {
        var f :| f in v.blank;
        assert f in m;
      } else if !v.payerCuiOk {
        assert PayerCui in m;
      } else if !v.beneficiaryCuiOk {
        assert BeneficiaryCui in m;
      } else if !v.ibanOk {
        assert BeneficiaryAccount in m;
      } else {
        assert BaseAmount in m;
      }
    } else {
      forall f | f in RequiredFields ensures IntendedFor(v, f).None? {
      }
      assert m == map[];
    }
  }

  /** A form that is correct except for a blank payer CUI. */
  function BlankPayerCuiForm(): PaymentForm {
    PaymentForm("SC DEMO SRL", "", "Str. Lunga 1", "0700000000",
      "ANAF", "12345679", "Str. Scurta 2", "RO49AAAA1B31007593840000",
      "2024-01-10", "taxe", "5000", "RON", "19", "5")
  }

  /** Only the payer CUI of that form is blank, and every format check passes. */
  lemma BlankPayerCuiVerdicts()
    ensures VerdictsOf(BlankPayerCuiForm()) == Verdicts({PayerCui}, true, true, true, false)
  {
    BlankPayerCuiOnlyBlank();
    ExampleCuisAccepted();
    IbanSampleAccepted();
    ExampleAmountPositive();
  }

  lemma ExampleCuisAccepted()
    ensures ValidateCui("") && ValidateCui("12345679")
  {
    DigitsCuiAccepted("12345679");
  }

  /** A value of 2 to 10 digits passes `validateCUI` unchanged by `trim()`. */
  lemma {:induction false} DigitsCuiAccepted(s: string)
    requires 2 <= |s| <= 10 && AllDigits(s)
    ensures ValidateCui(s)
  {
    TrimKeeps(s);
  }

  lemma ExampleAmountPositive()
    ensures !AmountNotPositive("5000")
  {
    assert NatToDecimal(5000) == "5000";
    ParseFloatOfDecimal(5000);
  }

  lemma BlankPayerCuiOnlyBlank()
    ensures BlankAmong(BlankPayerCuiForm(), RequiredFields) == {PayerCui}
  {
    var form := BlankPayerCuiForm();
    var b := BlankAmong(form, RequiredFields);
    forall f ensures f in b <==> f == PayerCui {
      BlankAmongMember(form, RequiredFields, f);
      RequiredFieldsCoverAll(f);
      if f != PayerCui {
        NotBlankWhenStartsWithText(Value(form, f));
      }
    }
  }

  lemma {:induction false} NotBlankWhenStartsWithText(s: string)
    requires s != [] && !IsJsSpace(s[0])
    ensures !IsBlank(s)
  {
  }

  /**
   * As written, `validateForm` rejects that form and yet leaves no field
   * message at all: `validateCUI` clears the "required" message of the blank
   * payer CUI.  The intended display keeps it.
   */
  lemma BlankCuiRejectedWithoutMessage()
    ensures !FormAccepted(BlankPayerCuiForm())
    ensures ShownMessages(VerdictsOf(BlankPayerCuiForm())) == map[]
    ensures IntendedMessages(VerdictsOf(BlankPayerCuiForm())) == map[PayerCui := Required]
  {
    BlankPayerCuiVerdicts();
    AcceptedOfVerdicts(BlankPayerCuiForm());
    BlankPayerCuiDisplay();
  }

  lemma BlankPayerCuiDisplay()
    ensures !Accepted(Verdicts({PayerCui}, true, true, true, false))
    ensures ShownMessages(Verdicts({PayerCui}, true, true, true, false)) == map[]
    ensures IntendedMessages(Verdicts({PayerCui}, true, true, true, false)) == map[PayerCui := Required]
  {
    var v := Verdicts({PayerCui}, true, true, true, false);
    SilentRejection(v);
    var m := IntendedMessages(v);
    forall f ensures f in m <==> f == PayerCui {
      RequiredFieldsCoverAll(f);
    }
    assert m.Keys == {PayerCui};
    assert m[PayerCui] == Required;
  }

  /** A value that is already upper case and unspaced is its own normal form. */
  lemma {:induction false} NormalizeKeepsBody(s: string)
    requires forall i :: 0 <= i < |s| ==> IsIbanBodyChar(s[i])
    ensures NormalizeIban(s) == s
  {
    RemoveWhitespaceKeeps(s);
    UpperOfUpper(s);
  }

  /** An upper-case, unspaced value of the Romanian shape passes both `isValidIBAN` and `validateIBAN`. */
  lemma {:induction false} IbanShapeAccepted(s: string)
    requires |s| == 24 && s[0] == 'R' && s[1] == 'O' && IsDigit(s[2]) && IsDigit(s[3])
    requires forall i :: 4 <= i < 24 ==> IsIbanBodyChar(s[i])
    ensures IsValidIban(s) && ValidateIban(s)
  {
    NormalizeKeepsBody(s);
  }

  /** The 24-character account of the end-to-end scenario is accepted. */
  lemma IbanSampleAccepted()
    ensures ValidateIban("RO49AAAA1B31007593840000")
  {
    IbanShapeAccepted("RO49AAAA1B31007593840000");
  }

  /** Upper-casing leaves capitals and digits alone. */
  lemma {:induction false} UpperOfUpper(s: string)
    requires forall i :: 0 <= i < |s| ==> IsIbanBodyChar(s[i])
    ensures ToUpper(s) == s
  {
    if s != [] {
      UpperOfUpper(s[1..]);
    }
  }

  /** A CUI is 2 to 10 ASCII digits: one digit, eleven digits or a letter are refused. */
  lemma CuiRejectedExamples()
    ensures !IsValidCui("1") && !IsValidCui("12345678901") && !IsValidCui("12a45")
  {
    assert |"12345678901"| == 11;
    assert !IsDigit("12a45"[2]);
  }

  /** Eight digits make a CUI. */
  lemma CuiAcceptedExample()
    ensures IsValidCui("12345678")
  {
    assert AllDigits("12345678");
  }

  /** Length is checked first: an upper-case, unspaced value of any other length than 24 is refused. */
  lemma {:induction false} IbanWrongLengthRejected(s: string)
    requires forall i :: 0 <= i < |s| ==> IsIbanBodyChar(s[i])
    requires |s| != 24
    ensures !IsValidIban(s)
  {
    NormalizeKeepsBody(s);
  }

  /** The 23-character account `RO49INGB1B3100759384000` is refused. */
  lemma IbanTooShortRejected()
    ensures !IsValidIban("RO49INGB1B3100759384000")
  {
    IbanWrongLengthRejected("RO49INGB1B3100759384000");
  }
}

/**
 * The record-store handlers of the payment-order server: submitting a form,
 * looking up its status by reference, listing the records page by page and
 * updating a record's status (server-simple.js; HW1/server-simple.js has the
 * same handlers, line for line).  The JSON data file is a parameter: `None`
 * when it is missing or cannot be read or parsed, else the parsed array; the
 * array a handler writes back is part of its result.
 */
module FormStore {
  import opened Results
  import opened JsText
  import opened Seqs
  import opened Sorting
  import opened Records

  /** Why a handler answers with an error status. */
  datatype Failure =
    | NamesRequired   // 400: the payer's or the beneficiary's name is missing
    | InvalidStatus   // 400: a status outside the four known ones
    | NotFound        // 404: no data file, or no matching record

  /** A posted field; a missing one reads as "", and both are falsy. */
  function PostedField(posted: map<string, string>, name: string): string {
    if name in posted then posted[name] else ""
  }

  /** The clock readings of the submit handler: for the reference, the id, `createdAt` and `updatedAt`. */
  datatype SubmitClock = SubmitClock(referenceMs: nat, idMs: nat, createdAt: int, updatedAt: int)

  /** `` `REF-${Date.now()}-${n}` ``. */
  function GeneratedReference(ms: nat, n: Suffix): string {
    "REF-" + NatToDecimal(ms) + "-" + NatToDecimal(n)
  }

  /** The names the record literal sets itself. */
  const OwnNames: set<string> := {"id", "reference", "files", "status", "createdAt", "updatedAt"}

  /**
   * The record literal `{id, reference, ...formData, files, status, createdAt,
   * updatedAt}`: a posted `id` or `reference` overrides the generated one,
   * while the four names after the spread override what was posted.
   */
  function NewRecord(posted: map<string, string>, files: seq<FileInfo>, clock: SubmitClock, n: Suffix): (r: Form)
    ensures forall k :: k in posted && k !in OwnNames ==> FieldOf(r, k) == posted[k]
    ensures forall k :: k in OwnNames ==> k !in r.fields
    ensures forall k :: k in r.fields ==> k in posted
    ensures r.status == "pending" && r.files == files
    ensures r.createdAt == clock.createdAt && r.updatedAt == clock.updatedAt
    ensures r.id == if "id" in posted then TextId(posted["id"]) else NumId(clock.idMs)
    ensures r.reference == if "reference" in posted then posted["reference"] else GeneratedReference(clock.referenceMs, n)
    ensures r.reference == GeneratedReference(clock.referenceMs, n) <==>
              "reference" !in posted || posted["reference"] == GeneratedReference(clock.referenceMs, n)
  {
    Form(if "id" in posted then TextId(posted["id"]) else NumId(clock.idMs),
         if "reference" in posted then posted["reference"] else GeneratedReference(clock.referenceMs, n),
         posted - OwnNames, files, "pending", clock.createdAt, clock.updatedAt)
  }

  /** The reply of a successful submission, with the array written back. */
  datatype Submitted = Submitted(forms: seq<Form>, formId: FormId, reference: string)

  /**
   * `POST /api/submit-form`: both names are required; the new record is
   * appended to the stored array (an unreadable file counts as empty and is
   * overwritten).  The reply carries the record's id and the generated
   * reference, even when a posted `reference` replaced it in the record.
   */
  function Submit(stored: Option<seq<Form>>, posted: map<string, string>, files: seq<FileInfo>,
                  clock: SubmitClock, n: Suffix): (r: Result<Submitted, Failure>)
    ensures r.Err? <==> PostedField(posted, "payerName") == [] || PostedField(posted, "beneficiaryName") == []
    ensures r.Err? ==> r.error == NamesRequired
    ensures r.Ok? ==>
      var before := stored.GetOr([]);
      && |r.value.forms| == |before| + 1
      && r.value.forms[..|before|] == before
      && r.value.forms[|before|] == NewRecord(posted, files, clock, n)
      && r.value.formId == r.value.forms[|before|].id
      && r.value.reference == GeneratedReference(clock.referenceMs, n)
  {
    if PostedField(posted, "payerName") == [] || PostedField(posted, "beneficiaryName") == [] then
      Err(NamesRequired)
    else
      var record := NewRecord(posted, files, clock, n);
      var forms := stored.GetOr([]) + [record];
      assert forms[..|stored.GetOr([])|] == stored.GetOr([]);
      Ok(Submitted(forms, record.id, GeneratedReference(clock.referenceMs, n)))
  }

  /** `forms.find(f => f.reference === reference)`, as the index of the first match. */
  function FindByReference(forms: seq<Form>, reference: string): (r: Option<nat>)
    ensures r.Some? ==> r.value < |forms| && forms[r.value].reference == reference
    ensures r.Some? ==> forall j :: 0 <= j < r.value ==> forms[j].reference != reference
    ensures r.None? ==> forall j :: 0 <= j < |forms| ==> forms[j].reference != reference
  {
    if forms == [] then None
    else if forms[0].reference == reference then Some(0)
    else match FindByReference(forms[1..], reference)
      case None => None
      case Some(i) => Some(i + 1)
  }

  datatype LogEntry = LogEntry(action: string, details: string, createdAt: int)

  /** What the status lookup replies with: the record's id, reference, status and times, and one log entry. */
  datatype StatusView = StatusView(id: FormId, reference: string, status: string,
                                   createdAt: int, updatedAt: int, logs: seq<LogEntry>)

  /** The reply shows the record's own identity, status and times, and the one submission entry of its log. */
  function ViewOf(form: Form): (v: StatusView)
    ensures v.id == form.id && v.reference == form.reference && v.status == form.status
    ensures v.createdAt == form.createdAt && v.updatedAt == form.updatedAt
    ensures |v.logs| == 1 && v.logs[0].action == "form_submitted" && v.logs[0].createdAt == form.createdAt
  {
    StatusView(form.id, form.reference, form.status, form.createdAt, form.updatedAt,
               [LogEntry("form_submitted", "Formular trimis cu succes", form.createdAt)])
  }

  /**
   * `GET /api/form-status/:reference`: the first record with that exact
   * reference; 404 without a data file or without a match.
   */
  function FormStatus(stored: Option<seq<Form>>, reference: string): (r: Result<StatusView, Failure>)
    ensures r.Err? ==> r.error == NotFound
    ensures r.Ok? <==> stored.Some? && exists j :: 0 <= j < |stored.value| && stored.value[j].reference == reference
    ensures r.Ok? ==> exists j :: 0 <= j < |stored.value| && r.value == ViewOf(stored.value[j])
                                 && stored.value[j].reference == reference
                                 && forall k :: 0 <= k < j ==> stored.value[k].reference != reference
  {
    if stored.None? then Err(NotFound)
    else match FindByReference(stored.value, reference)
      case None => Err(NotFound)
      case Some(j) => Ok(ViewOf(stored.value[j]))
  }

  /**
   * After a submission that kept the generated reference, looking up the
   * reference in the reply finds the new, pending record, unless an earlier
   * record already had that reference.
   */
  lemma {:induction false} LookupAfterSubmit(stored: Option<seq<Form>>, posted: map<string, string>, files: seq<FileInfo>,
                          clock: SubmitClock, n: Suffix)
    requires Submit(stored, posted, files, clock, n).Ok?
    requires "reference" !in posted
    requires forall j :: 0 <= j < |stored.GetOr([])| ==>
               stored.GetOr([])[j].reference != GeneratedReference(clock.referenceMs, n)
    ensures var s := Submit(stored, posted, files, clock, n).value;
      && FormStatus(Some(s.forms), s.reference) == Ok(ViewOf(NewRecord(posted, files, clock, n)))
      && FormStatus(Some(s.forms), s.reference).value.status == "pending"
  {
    var s := Submit(stored, posted, files, clock, n).value;
    var before := stored.GetOr([]);
    FindAfterAppend(before, NewRecord(posted, files, clock, n), s.reference);
    assert s.forms == before + [NewRecord(posted, files, clock, n)];
  }

  /** Appending a record changes no lookup that already succeeded, and finds the record for a new reference. */
  lemma {:induction false} FindAfterAppend(forms: seq<Form>, record: Form, reference: string)
    ensures FindByReference(forms + [record], reference) ==
      (match FindByReference(forms, reference)
       case Some(j) => Some(j)
       case None => if record.reference == reference then Some(|forms|) else None)
  {
    if forms != [] {
      assert (forms + [record])[1..] == forms[1..] + [record];
      FindAfterAppend(forms[1..], record, reference);
    } else {
      assert forms + [record] == [record];
    }
  }

  /** A submission changes no status lookup that already succeeded. */
  lemma {:induction false} SubmitKeepsLookups(stored: Option<seq<Form>>, posted: map<string, string>, files: seq<FileInfo>,
                           clock: SubmitClock, n: Suffix, reference: string)
    requires Submit(stored, posted, files, clock, n).Ok?
    requires FormStatus(stored, reference).Ok?
    ensures FormStatus(Some(Submit(stored, posted, files, clock, n).value.forms), reference)
         == FormStatus(stored, reference)
  {
    var s := Submit(stored, posted, files, clock, n).value;
    FindAfterAppend(stored.value, NewRecord(posted, files, clock, n), reference);
    assert s.forms == stored.value + [NewRecord(posted, files, clock, n)];
  }

  /** The statuses the update handler accepts. */
  const ValidStatuses: seq<string> := ["pending", "approved", "rejected", "processed"]

  /**
   * `f.id == id` with `id` the route parameter: the loose equality reads the
   * parameter as a number when the record's id is one, and compares text with
   * text otherwise.
   */
  predicate IdMatches(id: FormId, param: string) {
    match id
    case NumId(ms) => param != [] && AllDigits(param) && DigitsValue(param) == ms
    case TextId(text) => text == param
  }

  /**
   * A numeric id is matched by its decimal rendering behind any number of
   * leading zeros (`"0123"` matches 123, as `==` converts the text), and such
   * a numeral matches no other numeric id.
   */
  lemma {:induction false} IdMatchesNumeral(ms: nat, z: nat, other: nat)
    ensures IdMatches(NumId(ms), Zeros(z) + NatToDecimal(ms))
    ensures IdMatches(NumId(other), Zeros(z) + NatToDecimal(ms)) <==> other == ms
  {
    NatToDecimalRoundTrip(ms);
    LeadingZeros(Zeros(z), NatToDecimal(ms));
  }

  /** `forms.findIndex(f => f.id == id)`: the first matching index, or -1. */
  method FindIndex(forms: array<Form>, param: string) returns (index: int)
    ensures -1 <= index < forms.Length
    ensures index >= 0 ==> IdMatches(forms[index].id, param)
    ensures forall j :: 0 <= j < forms.Length && (index < 0 || j < index) ==> !IdMatches(forms[j].id, param)
  {
    index := 0;
    while index < forms.Length
      invariant 0 <= index <= forms.Length
      invariant forall j :: 0 <= j < index ==> !IdMatches(forms[j].id, param)
    {
      if IdMatches(forms[index].id, param) {
        return;
      }
      index := index + 1;
    }
    index := -1;
  }

  /** The assignments `forms[formIndex].status = status` and `forms[formIndex].updatedAt = now`. */
  function WithStatus(form: Form, status: string, now: int): Form {
    form.(status := status, updatedAt := now)
  }

  predicate FirstIdMatch(forms: seq<Form>, param: string, i: int) {
    0 <= i < |forms| && IdMatches(forms[i].id, param)
    && forall j :: 0 <= j < i ==> !IdMatches(forms[j].id, param)
  }

  /** `after` is `before` with the first record matching `param` given the new status and time. */
  ghost predicate IsUpdateOf(before: seq<Form>, after: seq<Form>, param: string, status: string, now: int) {
    exists i :: FirstIdMatch(before, param, i) && after == before[i := WithStatus(before[i], status, now)]
  }

  /**
   * `PUT /api/forms/:id/status`: the status is checked before the file is
   * read; the first record whose id matches gets the new status and update
   * time, and the whole array is written back.
   */
  method UpdateStatus(stored: Option<seq<Form>>, param: string, status: string, now: int)
    returns (r: Result<seq<Form>, Failure>)
    ensures status !in ValidStatuses ==> r == Err(InvalidStatus)
    ensures status in ValidStatuses && stored.None? ==> r == Err(NotFound)
    ensures status in ValidStatuses && stored.Some? ==>
      (r == Err(NotFound) <==> forall j :: 0 <= j < |stored.value| ==> !IdMatches(stored.value[j].id, param))
    ensures r.Ok? <==> status in ValidStatuses && stored.Some?
                       && exists j :: 0 <= j < |stored.value| && IdMatches(stored.value[j].id, param)
    ensures r.Ok? ==> stored.Some? && IsUpdateOf(stored.value, r.value, param, status, now)
  {
    if status !in ValidStatuses {
      return Err(InvalidStatus);
    }
    if stored.None? {
      return Err(NotFound);
    }
    var all := stored.value;
    var forms := new Form[|all|](i requires 0 <= i < |all| => all[i]);
    assert forms[..] == all;
    var index := FindIndex(forms, param);
    if index == -1 {
      assert forall j :: 0 <= j < |all| ==> all[j] == forms[j];
      return Err(NotFound);
    }
    forms[index] := WithStatus(forms[index], status, now);
    assert FirstIdMatch(all, param, index);
    assert forms[..] == all[index := WithStatus(all[index], status, now)];
    r := Ok(forms[..]);
  }

  /**
   * A status update changes no reference, so every lookup finds the same
   * record as before, and the updated record shows its new status.
   */
  lemma {:induction false} LookupAfterUpdate(forms: seq<Form>, i: nat, status: string, now: int, reference: string)
    requires i < |forms|
    ensures FindByReference(forms[i := WithStatus(forms[i], status, now)], reference)
         == FindByReference(forms, reference)
    ensures FindByReference(forms, reference) == Some(i) ==>
      FormStatus(Some(forms[i := WithStatus(forms[i], status, now)]), reference).value.status == status
  {
    var updated := forms[i := WithStatus(forms[i], status, now)];
    if i > 0 && forms[0].reference != reference {
      assert updated[1..] == forms[1..][i - 1 := WithStatus(forms[i], status, now)];
      LookupAfterUpdate(forms[1..], i - 1, status, now, reference);
    } else if i == 0 && forms[0].reference != reference {
      assert updated[1..] == forms[1..];
    }
  }

  /** The query of `GET /api/forms`; `page` and `limit` default to 1 and 10, an empty status means none. */
  datatype ListQuery = ListQuery(page: int, limit: int, status: string, from: DateBound, to: DateBound)

  /** `Math.ceil(total / limit)`: a count, Infinity (limit 0, some records) or NaN (limit 0, none). */
  datatype PageCount = Pages(count: int) | Infinite | NotANumber

  datatype Listing = Listing(forms: seq<Form>, page: int, limit: int, total: nat, pages: PageCount)

  function HasStatus(status: string): Form -> bool {
    (f: Form) => f.status == status
  }

  /** The records the listing keeps: the status filter when a status is given, then the date window. */
  function Matching(stored: Option<seq<Form>>, q: ListQuery): seq<Form> {
    var all := stored.GetOr([]);
    var byStatus := if q.status == [] then all else Filter(HasStatus(q.status), all);
    FilterWindow(byStatus, q.from, q.to)
  }

  predicate Selected(f: Form, q: ListQuery) {
    (q.status == [] || f.status == q.status) && InWindow(f, q.from, q.to)
  }

  function Selection(q: ListQuery): Form -> bool {
    (f: Form) => Selected(f, q)
  }

  /** The listing's filters together keep exactly the selected records, in stored order. */
  lemma {:induction false} MatchingIsOneFilter(stored: Option<seq<Form>>, q: ListQuery)
    ensures Matching(stored, q) == Filter(Selection(q), stored.GetOr([]))
  {
    var all := stored.GetOr([]);
    var byStatus := if q.status == [] then all else Filter(HasStatus(q.status), all);
    WindowIsOneFilter(byStatus, q.from, q.to);
    if q.status == [] {
      FilterExt(Window(q.from, q.to), Selection(q), all);
    } else {
      FilterFilter(HasStatus(q.status), Window(q.from, q.to), all);
      FilterExt(Both(HasStatus(q.status), Window(q.from, q.to)), Selection(q), all);
    }
  }

  /** The sort key of `(a, b) => new Date(b.createdAt) - new Date(a.createdAt)`: newest first. */
  function NewestFirst(f: Form): real {
    -(f.createdAt as real)
  }

  /** The selected records, newest first; records created at the same instant keep their stored order. */
  function Ordered(stored: Option<seq<Form>>, q: ListQuery): seq<Form> {
    Sort(NewestFirst, Matching(stored, q))
  }

  /** A `slice` argument: a negative one counts from the end; both are clamped to the sequence. */
  function RelativeIndex(k: int, len: nat): (r: nat)
    ensures r <= len
    ensures 0 <= k <= len ==> r == k
  {
    if k < 0 then (if len + k < 0 then 0 else len + k)
    else if k > len then len
    else k
  }

  /** `Array.prototype.slice(start, end)` for integer arguments. */
  function Slice<T>(s: seq<T>, start: int, end: int): (r: seq<T>)
    ensures |r| <= |s|
    ensures 0 <= start <= end <= |s| ==> r == s[start..end]
  {
    var from, to := RelativeIndex(start, |s|), RelativeIndex(end, |s|);
    if from < to then s[from..to] else []
  }

  /** Any slice is the run of `s` from the clamped start, as long as the clamped bounds allow. */
  lemma {:induction false} SliceClamped<T>(s: seq<T>, start: int, end: int)
    ensures var from, to := RelativeIndex(start, |s|), RelativeIndex(end, |s|);
      && |Slice(s, start, end)| == (if from < to then to - from else 0)
      && Slice(s, start, end) == s[from..from + |Slice(s, start, end)|]
  {
  }

  /** `Math.ceil(total / limit)`. */
  function PageCountOf(total: nat, limit: int): (p: PageCount)
    ensures limit > 0 ==> p.Pages? && p.count >= 0 && p.count * limit >= total && (p.count - 1) * limit < total
    ensures limit == 0 ==> p == (if total == 0 then NotANumber else Infinite)
    ensures limit < 0 ==> p.Pages? && p.count <= 0 && p.count * limit <= total < (p.count - 1) * limit
  {
    if limit == 0 then (if total == 0 then NotANumber else Infinite)
    else if limit > 0 then Pages((total + limit - 1) / limit)
    else Pages(-(total / -limit))
  }

  /** `(page - 1) * limit`, the index the page starts at. */
  function PageStart(page: int, limit: int): (start: int)
    ensures page >= 1 && limit >= 0 ==> start >= 0
  {
    if page >= 1 && limit >= 0 then MulMono(0, page - 1, limit); (page - 1) * limit
    else (page - 1) * limit
  }

  /** Page `q.page` of `q.limit` records of the sorted selection, and the pagination figures. */
  function Page(sorted: seq<Form>, q: ListQuery): (r: Listing)
    ensures r.total == |sorted| && r.page == q.page && r.limit == q.limit
  {
    var start := PageStart(q.page, q.limit);
    Listing(Slice(sorted, start, start + q.limit), q.page, q.limit, |sorted|, PageCountOf(|sorted|, q.limit))
  }

  /** `GET /api/forms`: filter, sort newest first, then cut out page `page` of `limit` records. */
  function ListForms(stored: Option<seq<Form>>, q: ListQuery): (r: Listing)
    ensures r.total == |Matching(stored, q)|
  {
    Page(Ordered(stored, q), q)
  }

  /** Every listed record is a stored one that passes the status filter and lies in the date window. */
  lemma {:induction false} ListedAreSelected(stored: Option<seq<Form>>, q: ListQuery)
    ensures forall i :: 0 <= i < |ListForms(stored, q).forms| ==>
      ListForms(stored, q).forms[i] in stored.GetOr([]) && Selected(ListForms(stored, q).forms[i], q)
  {
    MatchingIsOneFilter(stored, q);
    var start := PageStart(q.page, q.limit);
    var listed := ListForms(stored, q).forms;
    assert listed == Slice(Ordered(stored, q), start, start + q.limit);
    SliceOfSelection(stored.GetOr([]), Selection(q), Ordered(stored, q), start, start + q.limit);
    forall i | 0 <= i < |listed| ensures listed[i] in stored.GetOr([]) && Selected(listed[i], q) {
      assert Selection(q)(listed[i]);
    }
  }

  /** A slice of a reordering of the records `p` selects from `all` holds only such records. */
  lemma {:induction false} SliceOfSelection<T>(all: seq<T>, p: T -> bool, sorted: seq<T>, start: int, end: int)
    requires multiset(sorted) == multiset(Filter(p, all))
    ensures forall i :: 0 <= i < |Slice(sorted, start, end)| ==> Slice(sorted, start, end)[i] in all && p(Slice(sorted, start, end)[i])
  {
    var selection := Filter(p, all);
    SliceWithin(sorted, start, end);
    forall i | 0 <= i < |Slice(sorted, start, end)|
      ensures Slice(sorted, start, end)[i] in all && p(Slice(sorted, start, end)[i])
    {
      assert Slice(sorted, start, end)[i] in multiset(selection);
      var k :| 0 <= k < |selection| && selection[k] == Slice(sorted, start, end)[i];
    }
  }

  lemma {:induction false} SliceWithin<T>(s: seq<T>, start: int, end: int)
    ensures forall i :: 0 <= i < |Slice(s, start, end)| ==> Slice(s, start, end)[i] in multiset(s)
  {
  }

  /** The listing counts every selected record exactly once: the sorted records are a permutation of them. */
  lemma {:induction false} OrderedIsPermutation(stored: Option<seq<Form>>, q: ListQuery)
    ensures multiset(Ordered(stored, q)) == multiset(Filter(Selection(q), stored.GetOr([])))
  {
    MatchingIsOneFilter(stored, q);
  }

  /** The records come newest first, and records created at the same instant keep their stored order. */
  lemma {:induction false} OrderedNewestFirst(stored: Option<seq<Form>>, q: ListQuery, at: int)
    ensures forall i, j :: 0 <= i < j < |Ordered(stored, q)| ==>
      Ordered(stored, q)[i].createdAt >= Ordered(stored, q)[j].createdAt
    ensures WithKey(NewestFirst, Ordered(stored, q), -(at as real))
         == WithKey(NewestFirst, Matching(stored, q), -(at as real))
  {
    var m := Matching(stored, q);
    assert Ordered(stored, q) == Sort(NewestFirst, m);
    NewestFirstSorted(m);
    SortStable(NewestFirst, m, -(at as real));
  }

  lemma {:induction false} NewestFirstSorted(m: seq<Form>)
    ensures var s := Sort(NewestFirst, m);
      forall i, j :: 0 <= i < j < |s| ==> s[i].createdAt >= s[j].createdAt
  {
    var s := Sort(NewestFirst, m);
    assert SortedBy(NewestFirst, s) by {
      SortSorted(NewestFirst, m);
    }
    forall i, j | 0 <= i < j < |s| ensures s[i].createdAt >= s[j].createdAt {
      assert NewestFirst(s[i]) <= NewestFirst(s[j]);
    }
  }

  /** A page of a positive `limit` starting at `start >= 0`. */
  lemma {:induction false} SlicePage<T>(s: seq<T>, start: int, limit: int)
    requires limit > 0 && start >= 0
    ensures |Slice(s, start, start + limit)| <= limit
    ensures start < |s| ==>
      Slice(s, start, start + limit) == s[start..if start + limit < |s| then start + limit else |s|]
    ensures start >= |s| ==> Slice(s, start, start + limit) == []
  {
  }

  /**
   * With a positive limit, page `p` holds the sorted records from
   * `(p - 1) * limit` on, at most `limit` of them.
   */
  lemma {:induction false} PageContents(sorted: seq<Form>, q: ListQuery)
    requires q.limit > 0 && q.page >= 1
    ensures var start := PageStart(q.page, q.limit);
      && |Page(sorted, q).forms| <= q.limit
      && (start < |sorted| ==>
            Page(sorted, q).forms == sorted[start..if start + q.limit < |sorted| then start + q.limit else |sorted|])
      && (start >= |sorted| ==> Page(sorted, q).forms == [])
  {
    SlicePage(sorted, PageStart(q.page, q.limit), q.limit);
  }

  /** Record `k` of the sorted selection is on page `k / limit + 1`, at position `k % limit`, and that page exists. */
  lemma {:induction false} RecordOnItsPage(sorted: seq<Form>, q: ListQuery, k: nat)
    requires q.limit > 0 && q.page == k / q.limit + 1 && k < |sorted|
    ensures k % q.limit < |Page(sorted, q).forms|
    ensures Page(sorted, q).forms[k % q.limit] == sorted[k]
    ensures Page(sorted, q).pages.Pages? && q.page <= Page(sorted, q).pages.count
  {
    PageOfIndex(k, q.limit, |sorted|);
    PageContents(sorted, q);
  }

  /** The page of index `k` starts at `k` rounded down to a multiple of `l`, and is among the pages of `total` records. */
  lemma {:induction false} PageOfIndex(k: nat, l: int, total: nat)
    requires l > 0 && k < total
    ensures PageStart(k / l + 1, l) == k - k % l
    ensures PageCountOf(total, l).Pages? && k / l + 1 <= PageCountOf(total, l).count
  {
    var d, r := k / l, k % l;
    assert k == d * l + r && 0 <= r < l;
    var c := PageCountOf(total, l).count;
    assert d * l < c * l;
    MulCancelLess(d, c, l);
  }

  lemma {:induction false} MulCancelLess(a: int, b: int, m: nat)
    requires m > 0 && a * m < b * m
    ensures a < b
  {
    if a >= b {
      MulMono(b, a, m);
    }
  }

  lemma {:induction false} MulMono(a: int, b: int, m: nat)
    requires a <= b
    ensures a * m <= b * m
  {
  }
}

/**
 * The report endpoint of the payment-order server (server-simple.js): the
 * three grouping analyses (by payment purpose, by currency, by VAT rate), the
 * amount statistics, the general figures, and the handler that filters the
 * stored records by creation date before analysing them.  Percentages and
 * amounts are kept as exact numbers: the `toFixed` rendering is not modelled.
 */
module Report {
  import opened Results
  import opened Seqs
  import opened Sorting
  import opened KeyOrder
  import opened Records

  /** The grouping key of each record, in record order. */
  function KeysOf(forms: seq<Form>, keyOf: Form -> string): (ks: seq<string>)
    ensures |ks| == |forms|
    ensures forall i :: 0 <= i < |forms| ==> ks[i] == keyOf(forms[i])
  {
    if forms == [] then []
    else KeysOf(forms[..|forms| - 1], keyOf) + [keyOf(forms[|forms| - 1])]
  }

  /** `count[key] = (count[key] || 0) + 1` over the records: the size of group `k`. */
  function GroupCount(forms: seq<Form>, keyOf: Form -> string, k: string): nat {
    if forms == [] then 0
    else GroupCount(forms[..|forms| - 1], keyOf, k) + (if keyOf(forms[|forms| - 1]) == k then 1 else 0)
  }

  /**
   * `amounts[key] = (amounts[key] || 0) + parseFloat(form.totalAmount || 0)`
   * over the records of group `k`: the `|| 0` turns a NaN sum back into 0 at
   * the group's next record.
   */
  function GroupAmount(forms: seq<Form>, keyOf: Form -> string, amountOf: Form -> Num, k: string): Num {
    if forms == [] then Finite(0.0)
    else
      var acc := GroupAmount(forms[..|forms| - 1], keyOf, amountOf, k);
      var last := forms[|forms| - 1];
      if keyOf(last) == k then acc.OrZero().Plus(amountOf(last)) else acc
  }

  /** A group's sum is NaN exactly when the group's last record has a total that is not a number. */
  lemma {:induction false} GroupAmountNaN(forms: seq<Form>, keyOf: Form -> string, amountOf: Form -> Num, k: string)
    ensures GroupAmount(forms, keyOf, amountOf, k).NaN? <==>
      exists i :: 0 <= i < |forms| && keyOf(forms[i]) == k && amountOf(forms[i]).NaN?
                  && forall j :: i < j < |forms| ==> keyOf(forms[j]) != k
  {
    if forms != [] {
      var n := |forms| - 1;
      var prefix := forms[..n];
      GroupAmountNaN(prefix, keyOf, amountOf, k);
      if keyOf(forms[n]) != k {
        if GroupAmount(forms, keyOf, amountOf, k).NaN? {
          var i :| 0 <= i < n && keyOf(prefix[i]) == k && amountOf(prefix[i]).NaN?
                   && forall j :: i < j < n ==> keyOf(prefix[j]) != k;
          assert forall j :: i < j < |forms| ==> keyOf(forms[j]) != k;
        }
        if exists i :: 0 <= i < |forms| && keyOf(forms[i]) == k && amountOf(forms[i]).NaN?
                       && forall j :: i < j < |forms| ==> keyOf(forms[j]) != k {
          var i :| 0 <= i < |forms| && keyOf(forms[i]) == k && amountOf(forms[i]).NaN?
                   && forall j :: i < j < |forms| ==> keyOf(forms[j]) != k;
          assert i < n && prefix[i] == forms[i];
          assert forall j :: i < j < n ==> keyOf(prefix[j]) != k;
        }
      } else {
        if amountOf(forms[n]).NaN? {
          assert keyOf(forms[n]) == k;
        }
      }
    }
  }

  /** What the pass over the records keeps: the keys in first-seen order, and a count and a sum per key. */
  datatype Tallies = Tallies(order: seq<string>, counts: map<string, nat>, sums: map<string, Num>)

  /** The pass after the records `seen`, one record at a time. */
  function TallyOf(seen: seq<Form>, keyOf: Form -> string, amountOf: Form -> Num): Tallies {
    if seen == [] then Tallies([], map[], map[])
    else
      var t := TallyOf(seen[..|seen| - 1], keyOf, amountOf);
      var f := seen[|seen| - 1];
      var k := keyOf(f);
      Tallies(if k in t.counts then t.order else t.order + [k],
              t.counts[k := (if k in t.counts then t.counts[k] else 0) + 1],
              t.sums[k := (if k in t.sums then t.sums[k] else Finite(0.0)).OrZero().Plus(amountOf(f))])
  }

  /** The keys come out in the order of their first record. */
  lemma {:induction false} TallyOfOrder(seen: seq<Form>, keyOf: Form -> string, amountOf: Form -> Num)
    ensures TallyOf(seen, keyOf, amountOf).order == Distinct(KeysOf(seen, keyOf))
    ensures forall k :: k in TallyOf(seen, keyOf, amountOf).counts <==> k in TallyOf(seen, keyOf, amountOf).order
    ensures forall k :: k in TallyOf(seen, keyOf, amountOf).sums <==> k in TallyOf(seen, keyOf, amountOf).order
  {
    if seen != [] {
      TallyOfOrder(seen[..|seen| - 1], keyOf, amountOf);
    }
  }

  /** Each key's count is the size of its group. */
  lemma {:induction false} TallyOfCounts(seen: seq<Form>, keyOf: Form -> string, amountOf: Form -> Num, k: string)
    requires k in TallyOf(seen, keyOf, amountOf).counts
    ensures TallyOf(seen, keyOf, amountOf).counts[k] == GroupCount(seen, keyOf, k)
  {
    var prefix := seen[..|seen| - 1];
    if k in TallyOf(prefix, keyOf, amountOf).counts {
      TallyOfCounts(prefix, keyOf, amountOf, k);
    } else {
      TallyOfOrder(prefix, keyOf, amountOf);
      AbsentGroup(prefix, keyOf, amountOf, k);
    }
  }

  /** Each key's sum is the sum of its group. */
  lemma {:induction false} TallyOfSums(seen: seq<Form>, keyOf: Form -> string, amountOf: Form -> Num, k: string)
    requires k in TallyOf(seen, keyOf, amountOf).sums
    ensures TallyOf(seen, keyOf, amountOf).sums[k] == GroupAmount(seen, keyOf, amountOf, k)
  {
    var prefix := seen[..|seen| - 1];
    if k in TallyOf(prefix, keyOf, amountOf).sums {
      TallyOfSums(prefix, keyOf, amountOf, k);
    } else {
      TallyOfOrder(prefix, keyOf, amountOf);
      AbsentGroup(prefix, keyOf, amountOf, k);
    }
  }

  /** One pass over the records (`forms.forEach`), counting and summing per key and noting first occurrences. */
  method Tally(forms: seq<Form>, keyOf: Form -> string, amountOf: Form -> Num)
    returns (order: seq<string>, counts: map<string, nat>, sums: map<string, Num>)
    ensures order == Distinct(KeysOf(forms, keyOf))
    ensures forall k :: k in counts <==> k in order
    ensures forall k :: k in sums <==> k in order
    ensures forall k :: k in counts ==> counts[k] == GroupCount(forms, keyOf, k)
    ensures forall k :: k in sums ==> sums[k] == GroupAmount(forms, keyOf, amountOf, k)
  {
    order, counts, sums := [], map[], map[];
    var i := 0;
    while i < |forms|
      invariant 0 <= i <= |forms|
      invariant Tallies(order, counts, sums) == TallyOf(forms[..i], keyOf, amountOf)
    {
      var f := forms[i];
      var k := keyOf(f);
      assert forms[..i + 1][..i] == forms[..i];
      if k !in counts {
        order := order + [k];
      }
      var n := if k in counts then counts[k] else 0;
      var acc := if k in sums then sums[k] else Finite(0.0);
      counts := counts[k := n + 1];
      sums := sums[k := acc.OrZero().Plus(amountOf(f))];
      i := i + 1;
    }
    assert forms[..i] == forms;
    TallyOfOrder(forms, keyOf, amountOf);
    forall k | k in counts ensures counts[k] == GroupCount(forms, keyOf, k) {
      TallyOfCounts(forms, keyOf, amountOf, k);
    }
    forall k | k in sums ensures sums[k] == GroupAmount(forms, keyOf, amountOf, k) {
      TallyOfSums(forms, keyOf, amountOf, k);
    }
  }

  /** A key no record has forms an empty group. */
  lemma {:induction false} AbsentGroup(forms: seq<Form>, keyOf: Form -> string, amountOf: Form -> Num, k: string)
    requires k !in Distinct(KeysOf(forms, keyOf))
    ensures GroupCount(forms, keyOf, k) == 0 && GroupAmount(forms, keyOf, amountOf, k) == Finite(0.0)
  {
    var ks := KeysOf(forms, keyOf);
    forall i | 0 <= i < |forms| ensures keyOf(forms[i]) != k {
      assert ks[i] in Distinct(ks);
    }
    NoGroup(forms, keyOf, amountOf, k);
  }

  lemma {:induction false} NoGroup(forms: seq<Form>, keyOf: Form -> string, amountOf: Form -> Num, k: string)
    requires forall i :: 0 <= i < |forms| ==> keyOf(forms[i]) != k
    ensures GroupCount(forms, keyOf, k) == 0 && GroupAmount(forms, keyOf, amountOf, k) == Finite(0.0)
  {
    if forms != [] {
      NoGroup(forms[..|forms| - 1], keyOf, amountOf, k);
    }
  }

  /** The group keys in the order `Object.keys` lists them. */
  function GroupKeys(forms: seq<Form>, keyOf: Form -> string): seq<string> {
    ObjectKeys(Distinct(KeysOf(forms, keyOf)))
  }

  /** Each record's key is listed once, and nothing else is. */
  lemma {:induction false} GroupKeysExact(forms: seq<Form>, keyOf: Form -> string)
    ensures NoDup(GroupKeys(forms, keyOf))
    ensures forall i :: 0 <= i < |forms| ==> keyOf(forms[i]) in GroupKeys(forms, keyOf)
    ensures forall i :: 0 <= i < |GroupKeys(forms, keyOf)| ==> GroupKeys(forms, keyOf)[i] in KeysOf(forms, keyOf)
  {
    var ks := KeysOf(forms, keyOf);
    var order := Distinct(ks);
    ObjectKeysOrder(order);
    var keys := GroupKeys(forms, keyOf);
    forall i | 0 <= i < |forms| ensures keyOf(forms[i]) in keys {
      assert ks[i] in order;
      assert ks[i] in multiset(keys);
    }
    forall i | 0 <= i < |keys| ensures keys[i] in ks {
      assert keys[i] in multiset(order);
    }
  }

  /** `count / total * 100` before `toFixed(1)`. */
  function Percent(count: nat, total: nat): real
    requires total > 0
  {
    count as real / total as real * 100.0
  }

  /** `percentages[label] = ...` for each key in turn: a later key with the same label overwrites. */
  function PercentTable(forms: seq<Form>, keyOf: Form -> string, keys: seq<string>,
                        labelOf: string -> string): (pct: map<string, real>)
    requires keys == [] || |forms| > 0
    ensures forall i :: 0 <= i < |keys| ==> labelOf(keys[i]) in pct
    ensures forall l :: l in pct ==> exists i :: 0 <= i < |keys| && labelOf(keys[i]) == l
  {
    if keys == [] then map[]
    else
      var k := keys[|keys| - 1];
      PercentTable(forms, keyOf, keys[..|keys| - 1], labelOf)[labelOf(k) := Percent(GroupCount(forms, keyOf, k), |forms|)]
  }

  /** The value a label ends up with is that of the last key carrying it. */
  lemma {:induction false} PercentTableLastWins(forms: seq<Form>, keyOf: Form -> string, keys: seq<string>,
                                                labelOf: string -> string, j: nat)
    requires |forms| > 0 && j < |keys|
    requires forall m :: j < m < |keys| ==> labelOf(keys[m]) != labelOf(keys[j])
    ensures PercentTable(forms, keyOf, keys, labelOf)[labelOf(keys[j])] == Percent(GroupCount(forms, keyOf, keys[j]), |forms|)
  {
    if j < |keys| - 1 {
      var prefix := keys[..|keys| - 1];
      PercentTableLastWins(forms, keyOf, prefix, labelOf, j);
    }
  }

  function GroupLabels(keys: seq<string>, labelOf: string -> string): (r: seq<string>)
    ensures |r| == |keys| && forall i :: 0 <= i < |keys| ==> r[i] == labelOf(keys[i])
  {
    if keys == [] then [] else GroupLabels(keys[..|keys| - 1], labelOf) + [labelOf(keys[|keys| - 1])]
  }

  function GroupCounts(forms: seq<Form>, keyOf: Form -> string, keys: seq<string>): (r: seq<nat>)
    ensures |r| == |keys| && forall i :: 0 <= i < |keys| ==> r[i] == GroupCount(forms, keyOf, keys[i])
  {
    if keys == [] then [] else GroupCounts(forms, keyOf, keys[..|keys| - 1]) + [GroupCount(forms, keyOf, keys[|keys| - 1])]
  }

  function GroupAmounts(forms: seq<Form>, keyOf: Form -> string, amountOf: Form -> Num, keys: seq<string>): (r: seq<Num>)
    ensures |r| == |keys| && forall i :: 0 <= i < |keys| ==> r[i] == GroupAmount(forms, keyOf, amountOf, keys[i])
  {
    if keys == [] then [] else GroupAmounts(forms, keyOf, amountOf, keys[..|keys| - 1]) + [GroupAmount(forms, keyOf, amountOf, keys[|keys| - 1])]
  }

  /** One entry of `details`: the label, the count, `percentages[label]` and, but for VAT, the group's sum. */
  datatype Detail = Detail(name: string, count: nat, percentage: real, totalAmount: Option<Num>)

  function GroupDetails(forms: seq<Form>, keyOf: Form -> string, amountOf: Form -> Num, keys: seq<string>, labelOf: string -> string,
                        pct: map<string, real>, withAmounts: bool): (r: seq<Detail>)
    requires forall i :: 0 <= i < |keys| ==> labelOf(keys[i]) in pct
    ensures |r| == |keys|
    ensures forall i :: 0 <= i < |keys| ==>
      r[i] == Detail(labelOf(keys[i]), GroupCount(forms, keyOf, keys[i]), pct[labelOf(keys[i])],
                     if withAmounts then Some(GroupAmount(forms, keyOf, amountOf, keys[i])) else None)
  {
    if keys == [] then []
    else
      var k := keys[|keys| - 1];
      GroupDetails(forms, keyOf, amountOf, keys[..|keys| - 1], labelOf, pct, withAmounts)
        + [Detail(labelOf(k), GroupCount(forms, keyOf, k), pct[labelOf(k)],
                  if withAmounts then Some(GroupAmount(forms, keyOf, amountOf, k)) else None)]
  }

  /** What an analysis returns: index-aligned `labels`, `data` and `amounts`, the `percentages` table, `total` and `details`. */
  datatype Analysis = Analysis(labels: seq<string>, data: seq<nat>, amounts: Option<seq<Num>>,
                               percentages: map<string, real>, total: nat, details: seq<Detail>)

  lemma {:induction false} NoRecordsNoKeys(forms: seq<Form>, keyOf: Form -> string)
    ensures GroupKeys(forms, keyOf) == [] || |forms| > 0
  {
    if forms == [] {
      assert KeysOf(forms, keyOf) == [];
      assert Distinct(KeysOf(forms, keyOf)) == [];
    }
  }

  /** The analysis of one grouping, as a value: what the two passes below compute. */
  function AnalysisOf(forms: seq<Form>, keyOf: Form -> string, amountOf: Form -> Num, labelOf: string -> string, withAmounts: bool): Analysis {
    var keys := GroupKeys(forms, keyOf);
    NoRecordsNoKeys(forms, keyOf);
    var pct := PercentTable(forms, keyOf, keys, labelOf);
    Analysis(GroupLabels(keys, labelOf), GroupCounts(forms, keyOf, keys),
             if withAmounts then Some(GroupAmounts(forms, keyOf, amountOf, keys)) else None,
             pct, |forms|, GroupDetails(forms, keyOf, amountOf, keys, labelOf, pct, withAmounts))
  }

  /** `counts` and `sums` hold, for each of `keys`, that group's size and sum. */
  ghost predicate Covers(forms: seq<Form>, keyOf: Form -> string, amountOf: Form -> Num, keys: seq<string>,
                         counts: map<string, nat>, sums: map<string, Num>) {
    forall i :: 0 <= i < |keys| ==>
      && keys[i] in counts && counts[keys[i]] == GroupCount(forms, keyOf, keys[i])
      && keys[i] in sums && sums[keys[i]] == GroupAmount(forms, keyOf, amountOf, keys[i])
  }

  /**
   * The body shared by `analyzeByPurpose`, `analyzeByCurrency` and
   * `analyzeVAT`: tally the records, then walk `Object.keys` once to fill the
   * arrays and the percentage table, and once more to build the details.
   */
  method Analyze(forms: seq<Form>, keyOf: Form -> string, amountOf: Form -> Num, labelOf: string -> string, withAmounts: bool)
    returns (a: Analysis)
    ensures a == AnalysisOf(forms, keyOf, amountOf, labelOf, withAmounts)
  {
    var order, counts, sums := Tally(forms, keyOf, amountOf);
    var keys := ObjectKeys(order);
    TalliedKeys(forms, keyOf, amountOf, order, counts, sums);
    NoRecordsNoKeys(forms, keyOf);
    var labels, data, amounts, percentages := Columns(forms, keyOf, amountOf, labelOf, keys, counts, sums);
    var details := Details(forms, keyOf, amountOf, labelOf, keys, counts, sums, percentages, withAmounts);
    a := Analysis(labels, data, if withAmounts then Some(amounts) else None, percentages, |forms|, details);
  }

  /** The tally covers every key `Object.keys` lists. */
  lemma {:induction false} TalliedKeys(forms: seq<Form>, keyOf: Form -> string, amountOf: Form -> Num, order: seq<string>,
                    counts: map<string, nat>, sums: map<string, Num>)
    requires order == Distinct(KeysOf(forms, keyOf))
    requires forall k :: k in counts <==> k in order
    requires forall k :: k in sums <==> k in order
    requires forall k :: k in counts ==> counts[k] == GroupCount(forms, keyOf, k)
    requires forall k :: k in sums ==> sums[k] == GroupAmount(forms, keyOf, amountOf, k)
    ensures ObjectKeys(order) == GroupKeys(forms, keyOf)
    ensures Covers(forms, keyOf, amountOf, ObjectKeys(order), counts, sums)
  {
    var keys := ObjectKeys(order);
    ObjectKeysPermutation(order);
    forall i | 0 <= i < |keys| ensures keys[i] in order {
      assert keys[i] in multiset(order);
    }
  }

  /** The first walk over the keys: `labels`, `data`, `amounts` and `percentages`. */
  method Columns(forms: seq<Form>, keyOf: Form -> string, amountOf: Form -> Num, labelOf: string -> string,
                 keys: seq<string>, counts: map<string, nat>, sums: map<string, Num>)
    returns (labels: seq<string>, data: seq<nat>, amounts: seq<Num>, percentages: map<string, real>)
    requires keys == [] || |forms| > 0
    requires Covers(forms, keyOf, amountOf, keys, counts, sums)
    ensures labels == GroupLabels(keys, labelOf)
    ensures data == GroupCounts(forms, keyOf, keys)
    ensures amounts == GroupAmounts(forms, keyOf, amountOf, keys)
    ensures percentages == PercentTable(forms, keyOf, keys, labelOf)
  {
    labels, data, amounts, percentages := [], [], [], map[];
    var i := 0;
    while i < |keys|
      invariant 0 <= i <= |keys|
      invariant labels == GroupLabels(keys[..i], labelOf)
      invariant data == GroupCounts(forms, keyOf, keys[..i])
      invariant amounts == GroupAmounts(forms, keyOf, amountOf, keys[..i])
      invariant percentages == PercentTable(forms, keyOf, keys[..i], labelOf)
    {
      var k := keys[i];
      assert keys[..i + 1][..i] == keys[..i];
      var count := counts[k];
      var name := labelOf(k);
      labels := labels + [name];
      percentages := percentages[name := Percent(count, |forms|)];
      data := data + [count];
      amounts := amounts + [sums[k]];
      i := i + 1;
    }
    assert keys[..i] == keys;
  }

  /** The second walk over the keys: one detail per key, its percentage read back from the table by label. */
  method Details(forms: seq<Form>, keyOf: Form -> string, amountOf: Form -> Num, labelOf: string -> string,
                 keys: seq<string>, counts: map<string, nat>, sums: map<string, Num>,
                 percentages: map<string, real>, withAmounts: bool)
    returns (details: seq<Detail>)
    requires Covers(forms, keyOf, amountOf, keys, counts, sums)
    requires forall i :: 0 <= i < |keys| ==> labelOf(keys[i]) in percentages
    ensures details == GroupDetails(forms, keyOf, amountOf, keys, labelOf, percentages, withAmounts)
  {
    details := [];
    var i := 0;
    while i < |keys|
      invariant 0 <= i <= |keys|
      invariant details == GroupDetails(forms, keyOf, amountOf, keys[..i], labelOf, percentages, withAmounts)
    {
      var k := keys[i];
      assert keys[..i + 1][..i] == keys[..i];
      details := details + [Detail(labelOf(k), counts[k], percentages[labelOf(k)],
                                   if withAmounts then Some(sums[k]) else None)];
      i := i + 1;
    }
    assert keys[..i] == keys;
  }

  // ---------------------------------------------------------------------
  // What the groups add up to

  function SumNats(xs: seq<nat>): nat {
    if xs == [] then 0 else SumNats(xs[..|xs| - 1]) + xs[|xs| - 1]
  }

  /** A sum of numbers with `+`: one NaN makes it NaN. */
  function SumNums(xs: seq<Num>): Num {
    if xs == [] then Finite(0.0) else SumNums(xs[..|xs| - 1]).Plus(xs[|xs| - 1])
  }

  /** `forms.reduce((sum, form) => sum + amount(form), 0)`. */
  function Total(forms: seq<Form>, amountOf: Form -> Num): Num {
    if forms == [] then Finite(0.0) else Total(forms[..|forms| - 1], amountOf).Plus(amountOf(forms[|forms| - 1]))
  }

  /** How many times `x` occurs in `keys`. */
  function Occ(keys: seq<string>, x: string): nat {
    if keys == [] then 0 else Occ(keys[..|keys| - 1], x) + (if keys[|keys| - 1] == x then 1 else 0)
  }

  lemma {:induction false} OccNoDup(keys: seq<string>, x: string)
    requires NoDup(keys)
    ensures Occ(keys, x) == if x in keys then 1 else 0
  {
    if keys != [] {
      var prefix := keys[..|keys| - 1];
      assert NoDup(prefix);
      OccNoDup(prefix, x);
      assert keys == prefix + [keys[|keys| - 1]];
      if keys[|keys| - 1] == x {
        assert x !in prefix;
      }
    }
  }

  /** One more record adds one to the count of each listed key it carries. */
  lemma {:induction false} CountsSnoc(forms: seq<Form>, keyOf: Form -> string, keys: seq<string>)
    requires forms != []
    ensures SumNats(GroupCounts(forms, keyOf, keys)) ==
            SumNats(GroupCounts(forms[..|forms| - 1], keyOf, keys)) + Occ(keys, keyOf(forms[|forms| - 1]))
  {
    if keys != [] {
      var prefix := keys[..|keys| - 1];
      CountsSnoc(forms, keyOf, prefix);
      assert GroupCounts(forms, keyOf, keys)[..|prefix|] == GroupCounts(forms, keyOf, prefix);
      assert GroupCounts(forms[..|forms| - 1], keyOf, keys)[..|prefix|] == GroupCounts(forms[..|forms| - 1], keyOf, prefix);
    }
  }

  /** The groups of distinct keys covering every record partition the records: their sizes add up to the record count. */
  lemma {:induction false} CountsPartition(forms: seq<Form>, keyOf: Form -> string, keys: seq<string>)
    requires NoDup(keys)
    requires forall i :: 0 <= i < |forms| ==> keyOf(forms[i]) in keys
    ensures SumNats(GroupCounts(forms, keyOf, keys)) == |forms|
  {
    if forms == [] {
      ZeroCounts(forms, keyOf, keys);
    } else {
      var prefix := forms[..|forms| - 1];
      CountsPartition(prefix, keyOf, keys);
      CountsSnoc(forms, keyOf, keys);
      OccNoDup(keys, keyOf(forms[|forms| - 1]));
    }
  }

  lemma {:induction false} ZeroCounts(forms: seq<Form>, keyOf: Form -> string, keys: seq<string>)
    requires forms == []
    ensures SumNats(GroupCounts(forms, keyOf, keys)) == 0
  {
    if keys != [] {
      ZeroCounts(forms, keyOf, keys[..|keys| - 1]);
      assert GroupCounts(forms, keyOf, keys)[..|keys| - 1] == GroupCounts(forms, keyOf, keys[..|keys| - 1]);
    }
  }

  /** Every record's total is a number. */
  predicate AllFinite(forms: seq<Form>, amountOf: Form -> Num) {
    forall i :: 0 <= i < |forms| ==> amountOf(forms[i]).Finite?
  }

  lemma {:induction false} GroupAmountFinite(forms: seq<Form>, keyOf: Form -> string, amountOf: Form -> Num, k: string)
    requires AllFinite(forms, amountOf)
    ensures GroupAmount(forms, keyOf, amountOf, k).Finite?
  {
    if forms != [] {
      GroupAmountFinite(forms[..|forms| - 1], keyOf, amountOf, k);
    }
  }

  /** Adding `a` to the entry whose key is `x`, among distinct keys, adds `a` to the sum if `x` is listed. */
  lemma {:induction false} SumNumsShift(xs: seq<Num>, ys: seq<Num>, keys: seq<string>, x: string, a: real)
    requires |xs| == |ys| == |keys| && NoDup(keys)
    requires forall i :: 0 <= i < |ys| ==> ys[i].Finite? && xs[i] == Finite(ys[i].value + if keys[i] == x then a else 0.0)
    ensures SumNums(ys).Finite?
    ensures SumNums(xs) == Finite(SumNums(ys).value + if x in keys then a else 0.0)
  {
    if keys != [] {
      var n := |keys| - 1;
      assert NoDup(keys[..n]);
      SumNumsShift(xs[..n], ys[..n], keys[..n], x, a);
      assert keys == keys[..n] + [keys[n]];
      if keys[n] == x {
        assert x !in keys[..n];
      }
    }
  }

  /** One more record adds its total to the sum of each listed key it carries. */
  lemma {:induction false} AmountsSnoc(forms: seq<Form>, keyOf: Form -> string, amountOf: Form -> Num, keys: seq<string>)
    requires forms != [] && AllFinite(forms, amountOf) && NoDup(keys)
    ensures SumNums(GroupAmounts(forms[..|forms| - 1], keyOf, amountOf, keys)).Finite?
    ensures SumNums(GroupAmounts(forms, keyOf, amountOf, keys)) ==
      Finite(SumNums(GroupAmounts(forms[..|forms| - 1], keyOf, amountOf, keys)).value
             + if keyOf(forms[|forms| - 1]) in keys then amountOf(forms[|forms| - 1]).value else 0.0)
  {
    var prefix := forms[..|forms| - 1];
    var last := forms[|forms| - 1];
    assert AllFinite(prefix, amountOf) && amountOf(last).Finite?;
    var xs := GroupAmounts(forms, keyOf, amountOf, keys);
    var ys := GroupAmounts(prefix, keyOf, amountOf, keys);
    forall i | 0 <= i < |ys|
      ensures ys[i].Finite? && xs[i] == Finite(ys[i].value + if keys[i] == keyOf(last) then amountOf(last).value else 0.0)
    {
      var k := keys[i];
      GroupAmountFinite(prefix, keyOf, amountOf, k);
      var g := GroupAmount(prefix, keyOf, amountOf, k);
      assert xs[i] == GroupAmount(forms, keyOf, amountOf, k) && ys[i] == g;
      assert GroupAmount(forms, keyOf, amountOf, k) == if keyOf(last) == k then g.OrZero().Plus(amountOf(last)) else g;
    }
    SumNumsShift(xs, ys, keys, keyOf(last), amountOf(last).value);
  }

  lemma {:induction false} ZeroAmounts(forms: seq<Form>, keyOf: Form -> string, amountOf: Form -> Num, keys: seq<string>)
    requires forms == []
    ensures SumNums(GroupAmounts(forms, keyOf, amountOf, keys)) == Finite(0.0)
  {
    if keys != [] {
      ZeroAmounts(forms, keyOf, amountOf, keys[..|keys| - 1]);
      assert GroupAmounts(forms, keyOf, amountOf, keys)[..|keys| - 1] == GroupAmounts(forms, keyOf, amountOf, keys[..|keys| - 1]);
    }
  }

  /** Every record's key is listed in `keys`. */
  predicate AllKeyed(forms: seq<Form>, keyOf: Form -> string, keys: seq<string>) {
    forall i :: 0 <= i < |forms| ==> keyOf(forms[i]) in keys
  }

  /** When every total is a number, the groups' sums add up to the sum over all records. */
  lemma {:induction false} AmountsPartition(forms: seq<Form>, keyOf: Form -> string, amountOf: Form -> Num, keys: seq<string>)
    requires NoDup(keys)
    requires AllKeyed(forms, keyOf, keys)
    requires AllFinite(forms, amountOf)
    ensures SumNums(GroupAmounts(forms, keyOf, amountOf, keys)) == Total(forms, amountOf)
  {
    if forms == [] {
      ZeroAmounts(forms, keyOf, amountOf, keys);
    } else {
      var prefix := forms[..|forms| - 1];
      PrefixKeyedFinite(forms, keyOf, amountOf, keys);
      AmountsPartition(prefix, keyOf, amountOf, keys);
      AmountsSnoc(forms, keyOf, amountOf, keys);
    }
  }

  /** The records before the last keep the requirements of `AmountsPartition`, and the last one is listed with a number. */
  lemma {:induction false} PrefixKeyedFinite(forms: seq<Form>, keyOf: Form -> string, amountOf: Form -> Num, keys: seq<string>)
    requires forms != []
    requires AllKeyed(forms, keyOf, keys)
    requires AllFinite(forms, amountOf)
    ensures AllKeyed(forms[..|forms| - 1], keyOf, keys)
    ensures AllFinite(forms[..|forms| - 1], amountOf)
    ensures keyOf(forms[|forms| - 1]) in keys && amountOf(forms[|forms| - 1]).Finite?
  {
  }

  /** The unrounded percentages of the counts `data` out of `total`, added up. */
  function SumPercents(data: seq<nat>, total: nat): real
    requires total > 0
  {
    if data == [] then 0.0 else SumPercents(data[..|data| - 1], total) + Percent(data[|data| - 1], total)
  }

  lemma {:induction false} SumPercentsScale(data: seq<nat>, total: nat)
    requires total > 0
    ensures SumPercents(data, total) == SumNats(data) as real / total as real * 100.0
  {
    if data != [] {
      var prefix := data[..|data| - 1];
      SumPercentsScale(prefix, total);
      DivAdd(SumNats(prefix) as real, data[|data| - 1] as real, total as real);
    }
  }

  lemma {:induction false} DivAdd(s: real, c: real, t: real)
    requires t > 0.0
    ensures (s + c) / t * 100.0 == s / t * 100.0 + c / t * 100.0
  {
    assert (s + c) / t == s / t + c / t;
  }

  // ---------------------------------------------------------------------
  // Properties of an analysis

  lemma {:induction false} GroupCountPositive(forms: seq<Form>, keyOf: Form -> string, k: string)
    requires k in KeysOf(forms, keyOf)
    ensures GroupCount(forms, keyOf, k) > 0
  {
    var prefix := forms[..|forms| - 1];
    if keyOf(forms[|forms| - 1]) != k {
      assert KeysOf(forms, keyOf) == KeysOf(prefix, keyOf) + [keyOf(forms[|forms| - 1])];
      GroupCountPositive(prefix, keyOf, k);
    }
  }

  /** The analysis is built from the group keys: one entry per key, each array read at the same key. */
  lemma {:induction false} AnalysisParts(forms: seq<Form>, keyOf: Form -> string, amountOf: Form -> Num,
                                         labelOf: string -> string, withAmounts: bool)
    ensures var a := AnalysisOf(forms, keyOf, amountOf, labelOf, withAmounts);
      var keys := GroupKeys(forms, keyOf);
      && a.labels == GroupLabels(keys, labelOf)
      && a.data == GroupCounts(forms, keyOf, keys)
      && a.amounts == (if withAmounts then Some(GroupAmounts(forms, keyOf, amountOf, keys)) else None)
      && a.total == |forms|
      && a.details == GroupDetails(forms, keyOf, amountOf, keys, labelOf, a.percentages, withAmounts)
  {
  }

  /**
   * One entry per distinct key, no key twice; the arrays are index-aligned
   * with each other and with `details`; every count is the size of a
   * non-empty group; and `total` is the number of records.
   */
  lemma {:induction false} AnalysisShape(forms: seq<Form>, keyOf: Form -> string, amountOf: Form -> Num,
                                         labelOf: string -> string, withAmounts: bool)
    ensures var a := AnalysisOf(forms, keyOf, amountOf, labelOf, withAmounts);
      var keys := GroupKeys(forms, keyOf);
      && NoDup(keys)
      && (forall k :: k in keys <==> k in KeysOf(forms, keyOf))
      && |a.labels| == |a.data| == |a.details| == |keys|
      && a.total == |forms|
      && (a.amounts.Some? <==> withAmounts)
      && (a.amounts.Some? ==> |a.amounts.value| == |keys|)
      && (forall i :: 0 <= i < |keys| ==>
            && a.labels[i] == labelOf(keys[i]) == a.details[i].name
            && a.data[i] == GroupCount(forms, keyOf, keys[i]) == a.details[i].count
            && a.data[i] > 0
            && (a.amounts.Some? ==> a.amounts.value[i] == GroupAmount(forms, keyOf, amountOf, keys[i]))
            && a.details[i].totalAmount == (if withAmounts then Some(GroupAmount(forms, keyOf, amountOf, keys[i])) else None))
  {
    var keys := GroupKeys(forms, keyOf);
    AnalysisParts(forms, keyOf, amountOf, labelOf, withAmounts);
    GroupKeysExact(forms, keyOf);
    forall k | k in KeysOf(forms, keyOf) ensures k in keys {
      var i :| 0 <= i < |forms| && KeysOf(forms, keyOf)[i] == k;
    }
    forall i | 0 <= i < |keys| ensures GroupCount(forms, keyOf, keys[i]) > 0 {
      GroupCountPositive(forms, keyOf, keys[i]);
    }
  }

  /** The counts add up to the number of records. */
  lemma {:induction false} CountsSumToTotal(forms: seq<Form>, keyOf: Form -> string, amountOf: Form -> Num,
                         labelOf: string -> string, withAmounts: bool)
    ensures var a := AnalysisOf(forms, keyOf, amountOf, labelOf, withAmounts);
      SumNats(a.data) == a.total
  {
    GroupKeysExact(forms, keyOf);
    CountsPartition(forms, keyOf, GroupKeys(forms, keyOf));
  }

  /** The unrounded percentages of the groups add up to 100. */
  lemma {:induction false} PercentagesSumTo100(forms: seq<Form>, keyOf: Form -> string, amountOf: Form -> Num,
                            labelOf: string -> string, withAmounts: bool)
    requires |forms| > 0
    ensures var a := AnalysisOf(forms, keyOf, amountOf, labelOf, withAmounts);
      a.total > 0 && SumPercents(a.data, a.total) == 100.0
  {
    var a := AnalysisOf(forms, keyOf, amountOf, labelOf, withAmounts);
    CountsSumToTotal(forms, keyOf, amountOf, labelOf, withAmounts);
    SumPercentsScale(a.data, a.total);
    WholeIs100(a.total);
  }

  lemma {:induction false} WholeIs100(total: nat)
    requires total > 0
    ensures total as real / total as real * 100.0 == 100.0
  {
  }

  /** When every total is a number, the groups' sums add up to the sum of all totals. */
  lemma {:induction false} AmountsSumToTotal(forms: seq<Form>, keyOf: Form -> string, amountOf: Form -> Num,
                          labelOf: string -> string)
    requires AllFinite(forms, amountOf)
    ensures var a := AnalysisOf(forms, keyOf, amountOf, labelOf, true);
      a.amounts.Some? && SumNums(a.amounts.value) == Total(forms, amountOf)
  {
    GroupKeysExact(forms, keyOf);
    assert AllKeyed(forms, keyOf, GroupKeys(forms, keyOf));
    AmountsPartition(forms, keyOf, amountOf, GroupKeys(forms, keyOf));
  }

  /**
   * `percentages` holds exactly the labels; a detail's percentage is that of
   * the last group carrying its label, which is its own group's unless a
   * later group has the same label.
   */
  lemma {:induction false} DetailPercentage(forms: seq<Form>, keyOf: Form -> string, amountOf: Form -> Num,
                         labelOf: string -> string, withAmounts: bool, i: nat, j: nat)
    requires var a := AnalysisOf(forms, keyOf, amountOf, labelOf, withAmounts);
      i < |a.details| && j < |a.details| && a.labels[j] == a.labels[i]
      && forall m :: j < m < |a.labels| ==> a.labels[m] != a.labels[i]
    ensures var a := AnalysisOf(forms, keyOf, amountOf, labelOf, withAmounts);
      a.total > 0 && a.details[i].percentage == Percent(a.data[j], a.total)
  {
    var keys := GroupKeys(forms, keyOf);
    NoRecordsNoKeys(forms, keyOf);
    PercentTableLastWins(forms, keyOf, keys, labelOf, j);
  }

  /** With labels that tell the keys apart, every detail carries its own group's percentage. */
  lemma {:induction false} DistinctLabelsOwnPercentage(forms: seq<Form>, keyOf: Form -> string, amountOf: Form -> Num,
                                    labelOf: string -> string, withAmounts: bool)
    requires forall x, y :: labelOf(x) == labelOf(y) ==> x == y
    ensures var a := AnalysisOf(forms, keyOf, amountOf, labelOf, withAmounts);
      forall i :: 0 <= i < |a.details| ==> a.total > 0 && a.details[i].percentage == Percent(a.data[i], a.total)
  {
    var a := AnalysisOf(forms, keyOf, amountOf, labelOf, withAmounts);
    forall i | 0 <= i < |a.details| ensures a.total > 0 && a.details[i].percentage == Percent(a.data[i], a.total) {
      OwnPercentage(forms, keyOf, amountOf, labelOf, withAmounts, i);
    }
  }

  lemma {:induction false} OwnPercentage(forms: seq<Form>, keyOf: Form -> string, amountOf: Form -> Num,
                                         labelOf: string -> string, withAmounts: bool, i: nat)
    requires forall x, y :: labelOf(x) == labelOf(y) ==> x == y
    requires i < |AnalysisOf(forms, keyOf, amountOf, labelOf, withAmounts).details|
    ensures var a := AnalysisOf(forms, keyOf, amountOf, labelOf, withAmounts);
      a.total > 0 && a.details[i].percentage == Percent(a.data[i], a.total)
  {
    var a := AnalysisOf(forms, keyOf, amountOf, labelOf, withAmounts);
    var keys := GroupKeys(forms, keyOf);
    AnalysisParts(forms, keyOf, amountOf, labelOf, withAmounts);
    var labels := GroupLabels(keys, labelOf);
    assert a.labels == labels;
    assert NoDup(keys) by {
      GroupKeysExact(forms, keyOf);
    }
    forall m | i < m < |labels| ensures labels[m] != labels[i] {
      assert keys[m] != keys[i];
      assert labelOf(keys[m]) != labelOf(keys[i]);
    }
    DetailPercentage(forms, keyOf, amountOf, labelOf, withAmounts, i, i);
  }

  /** When every key is an array index (the VAT rates), the groups come in ascending numeric order. */
  lemma {:induction false} IndexKeysAscending(forms: seq<Form>, keyOf: Form -> string)
    requires forall i :: 0 <= i < |forms| ==> IsArrayIndex(keyOf(forms[i]))
    ensures SortedBy(KeyValue, GroupKeys(forms, keyOf))
  {
    var order := Distinct(KeysOf(forms, keyOf));
    forall j | 0 <= j < |order| ensures IsArrayIndex(order[j]) {
      assert order[j] in KeysOf(forms, keyOf);
    }
    OnlyIndexKeysAscending(order);
  }
}

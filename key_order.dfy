/**
 * The order in which `Object.keys` lists the keys of a plain object used as a
 * dictionary: keys that are array indices first, in ascending numeric order,
 * then every other key in the order it was first inserted (section 10.1.11.1
 * of ECMA-262, OrdinaryOwnPropertyKeys).  The grouping analyses of the report
 * take their group order from it.
 */
module KeyOrder {
  import opened JsText
  import opened Sorting
  import opened Seqs

  /** The number a key of decimal digits denotes; 0 for any other key. */
  function KeyValue(k: string): real {
    if AllDigits(k) then DigitsValue(k) as real else 0.0
  }

  /** A canonical decimal array index: `0`, or digits without a leading zero, below 2^32 - 1. */
  predicate IsArrayIndex(k: string) {
    k != [] && AllDigits(k) && (k[0] != '0' || |k| == 1) && KeyValue(k) < 4294967295.0
  }

  /** The array-index keys of `order`, in insertion order. */
  function IndexKeys(order: seq<string>): (r: seq<string>)
    ensures forall k :: k in r <==> k in order && IsArrayIndex(k)
    ensures forall i :: 0 <= i < |r| ==> IsArrayIndex(r[i])
  {
    if order == [] then []
    else (if IsArrayIndex(order[0]) then [order[0]] else []) + IndexKeys(order[1..])
  }

  /** The other keys of `order`, in insertion order. */
  function NamedKeys(order: seq<string>): (r: seq<string>)
    ensures forall k :: k in r <==> k in order && !IsArrayIndex(k)
  {
    if order == [] then []
    else (if IsArrayIndex(order[0]) then [] else [order[0]]) + NamedKeys(order[1..])
  }

  /** `Object.keys` of an object whose keys were first set in the order `order`. */
  function ObjectKeys(order: seq<string>): seq<string> {
    Sort(KeyValue, IndexKeys(order)) + NamedKeys(order)
  }

  lemma {:induction false} SplitKeysPermutation(order: seq<string>)
    ensures multiset(IndexKeys(order)) + multiset(NamedKeys(order)) == multiset(order)
  {
    if order != [] {
      var x, rest := order[0], order[1..];
      SplitKeysPermutation(rest);
      assert multiset(order) == multiset{x} + multiset(rest) by {
        assert order == [x] + rest;
      }
      SplitKeysStep(order);
    }
  }

  /** The first key goes to exactly one of the two lists. */
  lemma {:induction false} SplitKeysStep(order: seq<string>)
    requires order != []
    ensures multiset(IndexKeys(order)) + multiset(NamedKeys(order))
         == multiset{order[0]} + multiset(IndexKeys(order[1..])) + multiset(NamedKeys(order[1..]))
  {
    var x, rest := order[0], order[1..];
    var head := if IsArrayIndex(x) then [x] else [];
    var other := if IsArrayIndex(x) then [] else [x];
    assert IndexKeys(order) == head + IndexKeys(rest);
    assert NamedKeys(order) == other + NamedKeys(rest);
    assert multiset(head) + multiset(other) == multiset{x};
  }

  /**
   * `Object.keys` lists each key once, exactly the keys inserted: array
   * indices first in ascending numeric order, then the other keys in
   * insertion order.
   */
  lemma {:induction false} ObjectKeysOrder(order: seq<string>)
    requires NoDup(order)
    ensures multiset(ObjectKeys(order)) == multiset(order)
    ensures NoDup(ObjectKeys(order))
    ensures var n := |IndexKeys(order)|;
      && n <= |ObjectKeys(order)|
      && (forall i :: 0 <= i < n ==> IsArrayIndex(ObjectKeys(order)[i]))
      && SortedBy(KeyValue, ObjectKeys(order)[..n])
      && ObjectKeys(order)[n..] == NamedKeys(order)
  {
    ObjectKeysPermutation(order);
    NoDupFromMultiset(order, ObjectKeys(order));
    IndexKeysFirst(order);
  }

  lemma {:induction false} ObjectKeysPermutation(order: seq<string>)
    ensures multiset(ObjectKeys(order)) == multiset(order)
  {
    SplitKeysPermutation(order);
  }

  lemma {:induction false} IndexKeysFirst(order: seq<string>)
    ensures var n := |IndexKeys(order)|;
      && n <= |ObjectKeys(order)|
      && (forall i :: 0 <= i < n ==> IsArrayIndex(ObjectKeys(order)[i]))
      && SortedBy(KeyValue, ObjectKeys(order)[..n])
      && ObjectKeys(order)[n..] == NamedKeys(order)
  {
    var ix := IndexKeys(order);
    var sorted := Sort(KeyValue, ix);
    var r := ObjectKeys(order);
    SortSorted(KeyValue, ix);
    SortKeepsProperty(KeyValue, ix, IsArrayIndex);
    assert r == sorted + NamedKeys(order);
    assert r[..|ix|] == sorted;
  }

  /** With no array-index key, `Object.keys` is plain insertion order. */
  lemma {:induction false} NoIndexKeysKeepOrder(order: seq<string>)
    requires forall i :: 0 <= i < |order| ==> !IsArrayIndex(order[i])
    ensures ObjectKeys(order) == order
  {
    NamedKeysAll(order);
  }

  lemma {:induction false} NamedKeysAll(order: seq<string>)
    requires forall i :: 0 <= i < |order| ==> !IsArrayIndex(order[i])
    ensures NamedKeys(order) == order
  {
    if order != [] {
      NamedKeysAll(order[1..]);
    }
  }

  /** With only array-index keys, `Object.keys` lists them in ascending numeric order. */
  lemma {:induction false} OnlyIndexKeysAscending(order: seq<string>)
    requires forall i :: 0 <= i < |order| ==> IsArrayIndex(order[i])
    ensures SortedBy(KeyValue, ObjectKeys(order))
  {
    NamedKeysNone(order);
    SortSorted(KeyValue, IndexKeys(order));
    assert ObjectKeys(order) == Sort(KeyValue, IndexKeys(order));
  }

  lemma {:induction false} NamedKeysNone(order: seq<string>)
    requires forall i :: 0 <= i < |order| ==> IsArrayIndex(order[i])
    ensures NamedKeys(order) == []
  {
    if order != [] {
      NamedKeysNone(order[1..]);
    }
  }
}

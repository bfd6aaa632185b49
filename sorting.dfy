/**
 * A stable insertion sort by a numeric key.  `Array.prototype.sort` is
 * stable (section 23.1.3.30 of ECMA-262), and both orders the source relies
 * on are key orders: `Object.keys` lists array-index keys by ascending value,
 * and the listing handler sorts records by descending creation time.
 */
module Sorting {

  predicate SortedBy<T>(key: T -> real, s: seq<T>) {
    forall i, j :: 0 <= i < j < |s| ==> key(s[i]) <= key(s[j])
  }

  /** Inserts `x` before the first element whose key is not smaller. */
  function Insert<T>(key: T -> real, x: T, s: seq<T>): (r: seq<T>)
    ensures multiset(r) == multiset(s) + multiset{x}
    ensures |r| == |s| + 1
  {
    if s == [] || key(x) <= key(s[0]) then [x] + s
    else
      assert s == [s[0]] + s[1..];
      [s[0]] + Insert(key, x, s[1..])
  }

  function Sort<T>(key: T -> real, s: seq<T>): (r: seq<T>)
    ensures multiset(r) == multiset(s)
    ensures |r| == |s|
  {
    if s == [] then []
    else
      assert s == [s[0]] + s[1..];
      Insert(key, s[0], Sort(key, s[1..]))
  }

  lemma {:induction false} InsertSorted<T>(key: T -> real, x: T, s: seq<T>)
    requires SortedBy(key, s)
    ensures SortedBy(key, Insert(key, x, s))
  {
    var r := Insert(key, x, s);
    if s != [] && key(x) > key(s[0]) {
      InsertSorted(key, x, s[1..]);
      var rest := Insert(key, x, s[1..]);
      assert r == [s[0]] + rest;
      forall j | 0 <= j < |rest| ensures key(s[0]) <= key(rest[j]) {
        assert rest[j] in multiset(rest);
        if rest[j] != x {
          assert rest[j] in multiset(s[1..]);
          var m :| 0 <= m < |s[1..]| && s[1..][m] == rest[j];
          assert s[m + 1] == rest[j];
        }
      }
      forall i, j | 0 <= i < j < |r| ensures key(r[i]) <= key(r[j]) {
        if i > 0 {
          assert r[i] == rest[i - 1] && r[j] == rest[j - 1];
        } else {
          assert r[j] == rest[j - 1];
        }
      }
    }
  }

  lemma {:induction false} SortSorted<T>(key: T -> real, s: seq<T>)
    ensures SortedBy(key, Sort(key, s))
  {
    if s != [] {
      SortSorted(key, s[1..]);
      InsertSorted(key, s[0], Sort(key, s[1..]));
    }
  }

  /** The elements of `s` whose key is `v`, in order. */
  function WithKey<T>(key: T -> real, s: seq<T>, v: real): seq<T>
  {
    if s == [] then []
    else (if key(s[0]) == v then [s[0]] else []) + WithKey(key, s[1..], v)
  }

  lemma {:induction false} WithKeyAppend<T>(key: T -> real, a: seq<T>, b: seq<T>, v: real)
    ensures WithKey(key, a + b, v) == WithKey(key, a, v) + WithKey(key, b, v)
  {
    if a != [] {
      assert (a + b)[1..] == a[1..] + b;
      WithKeyAppend(key, a[1..], b, v);
    } else {
      assert a + b == b;
    }
  }

  lemma {:induction false} WithKeySingle<T>(key: T -> real, y: T, v: real)
    ensures WithKey(key, [y], v) == if key(y) == v then [y] else []
  {
    assert WithKey(key, [y], v) == (if key(y) == v then [y] else []) + WithKey(key, [], v);
  }

  /** Inserting `x` puts it before every element of equal key. */
  lemma {:induction false} InsertWithKey<T>(key: T -> real, x: T, s: seq<T>, v: real)
    ensures WithKey(key, Insert(key, x, s), v) == WithKey(key, [x], v) + WithKey(key, s, v)
    decreases |s|, 1
  {
    if s != [] && key(x) > key(s[0]) {
      InsertWithKeyLater(key, x, s, v);
    } else {
      WithKeyAppend(key, [x], s, v);
    }
  }

  /** When `x` goes after the head, the head has a smaller key, so `x` is not among its equals. */
  lemma {:induction false} InsertWithKeyLater<T>(key: T -> real, x: T, s: seq<T>, v: real)
    requires s != [] && key(x) > key(s[0])
    ensures WithKey(key, Insert(key, x, s), v) == WithKey(key, [x], v) + WithKey(key, s, v)
    decreases |s|, 0
  {
    var head, tail := [s[0]], s[1..];
    var rest := Insert(key, x, tail);
    var h, own := WithKey(key, head, v), WithKey(key, [x], v);
    assert WithKey(key, Insert(key, x, s), v) == h + WithKey(key, rest, v) by {
      assert Insert(key, x, s) == head + rest;
      WithKeyAppend(key, head, rest, v);
    }
    assert WithKey(key, s, v) == h + WithKey(key, tail, v) by {
      WithKeyAppend(key, head, tail, v);
      assert head + tail == s;
    }
    assert h == [] || own == [] by {
      WithKeySingle(key, s[0], v);
      WithKeySingle(key, x, v);
    }
    InsertWithKey(key, x, tail, v);
    SplitEqual(WithKey(key, Insert(key, x, s), v), WithKey(key, s, v), h, own,
               WithKey(key, rest, v), WithKey(key, tail, v));
  }

  /** The bookkeeping of the case above: with `h` or `own` empty, the two may be swapped. */
  lemma {:induction false} SplitEqual<T>(wi: seq<T>, ws: seq<T>, h: seq<T>, own: seq<T>, wr: seq<T>, wt: seq<T>)
    requires wi == h + wr && ws == h + wt && wr == own + wt
    requires h == [] || own == []
    ensures wi == own + ws
  {
    if h == [] {
      assert h + wr == wr && h + wt == wt;
    } else {
      assert own + wt == wt && own + ws == ws;
    }
  }

  /** The sort is stable: the elements of each key keep their relative order. */
  lemma {:induction false} SortStable<T>(key: T -> real, s: seq<T>, v: real)
    ensures WithKey(key, Sort(key, s), v) == WithKey(key, s, v)
  {
    if s != [] {
      var rest := Sort(key, s[1..]);
      SortStable(key, s[1..], v);
      InsertWithKey(key, s[0], rest, v);
      WithKeySingle(key, s[0], v);
      assert Sort(key, s) == Insert(key, s[0], rest);
    }
  }

  /** Sorting keeps every element, so a property of all elements survives it. */
  lemma {:induction false} SortKeepsProperty<T>(key: T -> real, s: seq<T>, p: T -> bool)
    requires forall i :: 0 <= i < |s| ==> p(s[i])
    ensures forall i :: 0 <= i < |Sort(key, s)| ==> p(Sort(key, s)[i])
  {
    var r := Sort(key, s);
    forall i | 0 <= i < |r| ensures p(r[i]) {
      assert r[i] in multiset(s);
      var m :| 0 <= m < |s| && s[m] == r[i];
    }
  }
}

/** `labels.sort((a, b) => parseInt(a) - parseInt(b))`: ECMAScript's stable
    sort with a comparator on an integer key of each element. An element
    without a key (parseInt gives NaN) makes the comparator return NaN, which
    the sort reads as 0 ("equal"). The sort is written over any key function;
    the quality list instantiates it with `parseInt`. */
module KeySort {
  import opened Wrappers

  /** The comparator's value, as the sort uses it. */
  function Compare<T>(key: T -> Option<int>, a: T, b: T): int
  {
    if key(a).Some? && key(b).Some? then key(a).value - key(b).value else 0
  }

  /** Inserting `x` behind every element that does not compare greater than it. */
  function Insert<T>(key: T -> Option<int>, t: seq<T>, x: T): (r: seq<T>)
    ensures |r| == |t| + 1
  {
    if t == [] then [x]
    else if Compare(key, t[|t| - 1], x) > 0 then
      assert t == t[..|t| - 1] + [t[|t| - 1]];
      Insert(key, t[..|t| - 1], x) + [t[|t| - 1]]
    else t + [x]
  }

  /** The stable insertion sort that the ECMAScript sort agrees with whenever
      the comparator is consistent. */
  function SortBy<T>(key: T -> Option<int>, s: seq<T>): (r: seq<T>)
    ensures |r| == |s|
  {
    if s == [] then []
    else Insert(key, SortBy(key, s[..|s| - 1]), s[|s| - 1])
  }

  /** Inserting adds exactly `x`. */
  lemma {:induction false} InsertPermutes<T>(key: T -> Option<int>, t: seq<T>, x: T)
    ensures multiset(Insert(key, t, x)) == multiset(t) + multiset{x}
  {
    if t != [] && Compare(key, t[|t| - 1], x) > 0 {
      var init, last := t[..|t| - 1], t[|t| - 1];
      InsertPermutes(key, init, x);
      assert t == init + [last];
      assert multiset(t) == multiset(init) + multiset{last};
    }
  }

  /** The sort is a permutation of its input. */
  lemma {:induction false} SortByPermutes<T>(key: T -> Option<int>, s: seq<T>)
    ensures multiset(SortBy(key, s)) == multiset(s)
  {
    if s != [] {
      var init, x := s[..|s| - 1], s[|s| - 1];
      SortByPermutes(key, init);
      InsertPermutes(key, SortBy(key, init), x);
      assert s == init + [x];
      assert multiset(s) == multiset(init) + multiset{x};
    }
  }

  /** Every element has a key, so the comparator is consistent. */
  predicate AllKeyed<T>(key: T -> Option<int>, s: seq<T>)
  {
    forall i :: 0 <= i < |s| ==> key(s[i]).Some?
  }

  /** Ascending by key. */
  predicate Sorted<T>(key: T -> Option<int>, s: seq<T>)
    requires AllKeyed(key, s)
  {
    forall i, j :: 0 <= i < j < |s| ==> key(s[i]).value <= key(s[j]).value
  }

  /** The elements of `s` whose key is `k`, in order. */
  function WithKey<T>(key: T -> Option<int>, s: seq<T>, k: int): seq<T>
  {
    if s == [] then []
    else (if key(s[0]) == Some(k) then [s[0]] else []) + WithKey(key, s[1..], k)
  }

  lemma WithKeySingle<T>(key: T -> Option<int>, x: T, k: int)
    ensures WithKey(key, [x], k) == if key(x) == Some(k) then [x] else []
  {
    assert [x][1..] == [];
  }

  lemma {:induction false} WithKeyAppend<T>(key: T -> Option<int>, a: seq<T>, b: seq<T>, k: int)
    ensures WithKey(key, a + b, k) == WithKey(key, a, k) + WithKey(key, b, k)
  {
    if a == [] {
      assert a + b == b;
    } else {
      var ab := a + b;
      assert ab[0] == a[0] && ab[1..] == a[1..] + b;
      WithKeyAppend(key, a[1..], b, k);
      var h, wa, wb := if key(a[0]) == Some(k) then [a[0]] else [], WithKey(key, a[1..], k), WithKey(key, b, k);
      assert WithKey(key, ab, k) == h + (wa + wb);
      assert WithKey(key, a, k) == h + wa;
      assert h + (wa + wb) == (h + wa) + wb;
    }
  }

  lemma AllKeyedOfMultiset<T>(key: T -> Option<int>, r: seq<T>, s: seq<T>)
    requires multiset(r) == multiset(s) && AllKeyed(key, s)
    ensures AllKeyed(key, r)
  {
    forall i | 0 <= i < |r| ensures key(r[i]).Some? {
      assert r[i] in multiset(r);
      var j :| 0 <= j < |s| && s[j] == r[i];
    }
  }

  /** One insertion step keeps a sorted list sorted. */
  lemma {:induction false} InsertSorted<T>(key: T -> Option<int>, t: seq<T>, x: T)
    requires AllKeyed(key, t) && Sorted(key, t) && key(x).Some?
    ensures AllKeyed(key, Insert(key, t, x)) && Sorted(key, Insert(key, t, x))
  {
    if t == [] {
      assert Insert(key, t, x) == [x];
    } else if Compare(key, t[|t| - 1], x) > 0 {
      var init, last := t[..|t| - 1], t[|t| - 1];
      assert AllKeyed(key, init) && Sorted(key, init) by {
        forall i | 0 <= i < |init| ensures init[i] == t[i] { }
      }
      InsertSorted(key, init, x);
      InsertBehind(key, t, x);
      InsertBelowLast(key, t, x);
      SortedSnoc(key, Insert(key, init, x), last);
    } else {
      assert Insert(key, t, x) == t + [x];
      SortedSnoc(key, t, x);
    }
  }

  /** Every element has a key no greater than `bound`. */
  predicate AtMost<T>(key: T -> Option<int>, s: seq<T>, bound: int)
  {
    forall i :: 0 <= i < |s| ==> key(s[i]).Some? && key(s[i]).value <= bound
  }

  /** Appending an element no smaller than every element keeps a list sorted. */
  lemma SortedSnoc<T>(key: T -> Option<int>, t: seq<T>, y: T)
    requires AllKeyed(key, t) && Sorted(key, t) && key(y).Some?
    requires AtMost(key, t, key(y).value)
    ensures AllKeyed(key, t + [y]) && Sorted(key, t + [y])
  {
    var r := t + [y];
    forall i | 0 <= i < |t| ensures r[i] == t[i] { }
  }

  /** When `x` moves in front of the last element, everything inserted into
      the prefix is at most the last element. */
  lemma InsertBelowLast<T>(key: T -> Option<int>, t: seq<T>, x: T)
    requires t != [] && AllKeyed(key, t) && Sorted(key, t) && key(x).Some? && Compare(key, t[|t| - 1], x) > 0
    ensures AllKeyed(key, Insert(key, t[..|t| - 1], x))
    ensures AtMost(key, Insert(key, t[..|t| - 1], x), key(t[|t| - 1]).value)
  {
    var init, last := t[..|t| - 1], t[|t| - 1];
    var a := Insert(key, init, x);
    InsertPermutes(key, init, x);
    AllKeyedOfMultiset(key, a, init + [x]);
    forall i | 0 <= i < |a| ensures key(a[i]).value <= key(last).value {
      assert a[i] in multiset(init) + multiset{x};
      if a[i] != x {
        var j :| 0 <= j < |init| && init[j] == a[i];
        assert t[j] == init[j];
      }
    }
  }

  /** Inserting keeps the elements of each key in their previous order, with
      `x` behind those of its own key. */
  lemma {:induction false} InsertStable<T>(key: T -> Option<int>, t: seq<T>, x: T, k: int)
    requires AllKeyed(key, t) && Sorted(key, t) && key(x).Some?
    ensures WithKey(key, Insert(key, t, x), k) == WithKey(key, t, k) + WithKey(key, [x], k)
  {
    if t == [] {
      assert Insert(key, t, x) == [x];
    } else if Compare(key, t[|t| - 1], x) > 0 {
      var init := t[..|t| - 1];
      assert AllKeyed(key, init) && Sorted(key, init) by {
        forall i | 0 <= i < |init| ensures init[i] == t[i] { }
      }
      InsertStable(key, init, x, k);
      InsertBehindStable(key, t, x, k);
    } else {
      assert Insert(key, t, x) == t + [x];
      WithKeyAppend(key, t, [x], k);
    }
  }

  /** The step of `InsertStable` where `x` moves in front of the last
      element, given the property for the shorter prefix. */
  lemma InsertBehindStable<T>(key: T -> Option<int>, t: seq<T>, x: T, k: int)
    requires t != [] && AllKeyed(key, t) && key(x).Some? && Compare(key, t[|t| - 1], x) > 0
    requires WithKey(key, Insert(key, t[..|t| - 1], x), k) == WithKey(key, t[..|t| - 1], k) + WithKey(key, [x], k)
    ensures WithKey(key, Insert(key, t, x), k) == WithKey(key, t, k) + WithKey(key, [x], k)
  {
    var init, last := t[..|t| - 1], t[|t| - 1];
    var a := Insert(key, init, x);
    WithKeyLast(key, t, k);
    InsertBehind(key, t, x);
    WithKeyAppend(key, a, [last], k);
    WithKeySingle(key, x, k);
    WithKeySingle(key, last, k);
    var wi, wx, wl := WithKey(key, init, k), WithKey(key, [x], k), WithKey(key, [last], k);
    if wx == [] {
      assert wi + wx == wi && (wi + wl) + wx == wi + wl;
    } else {
      assert wl == [];
      assert (wi + wx) + wl == wi + wx && wi + wl == wi;
    }
  }

  /** The elements of `t` with key `k` are those of its prefix, then its last one's. */
  lemma WithKeyLast<T>(key: T -> Option<int>, t: seq<T>, k: int)
    requires t != []
    ensures WithKey(key, t, k) == WithKey(key, t[..|t| - 1], k) + WithKey(key, [t[|t| - 1]], k)
  {
    assert t == t[..|t| - 1] + [t[|t| - 1]];
    WithKeyAppend(key, t[..|t| - 1], [t[|t| - 1]], k);
  }

  /** When the last element compares greater, `x` goes into the prefix. */
  lemma InsertBehind<T>(key: T -> Option<int>, t: seq<T>, x: T)
    requires t != [] && Compare(key, t[|t| - 1], x) > 0
    ensures Insert(key, t, x) == Insert(key, t[..|t| - 1], x) + [t[|t| - 1]]
  {
  }

  /** When every element has a key the sort returns them ascending, and
      elements with equal keys keep their input order. */
  lemma {:induction false} SortSortedAndStable<T>(key: T -> Option<int>, s: seq<T>, k: int)
    requires AllKeyed(key, s)
    ensures AllKeyed(key, SortBy(key, s)) && Sorted(key, SortBy(key, s))
    ensures WithKey(key, SortBy(key, s), k) == WithKey(key, s, k)
  {
    if s != [] {
      var init, x := s[..|s| - 1], s[|s| - 1];
      assert s == init + [x];
      var sortedInit := SortBy(key, init);
      SortSortedAndStable(key, init, k);
      InsertSorted(key, sortedInit, x);
      InsertStable(key, sortedInit, x, k);
      WithKeyAppend(key, init, [x], k);
    }
  }
}

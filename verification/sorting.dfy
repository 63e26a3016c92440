/** A stable sort by a key, as Python's `list.sort(key=...)` and `sorted`
    perform it. Keys are integer sequences compared lexicographically: a
    string is compared by its code points and a calendar date by its
    (year, month, day) triple, which is how Python orders both. */
module Sorting {

  /** Lexicographic "less than or equal" on integer sequences. */
  predicate LexLe(a: seq<int>, b: seq<int>)
    decreases |a|
  {
    |a| == 0 || (|b| > 0 && (a[0] < b[0] || (a[0] == b[0] && LexLe(a[1..], b[1..]))))
  }

  lemma {:induction false} LexRefl(a: seq<int>)
    ensures LexLe(a, a)
    decreases |a|
  {
    if |a| > 0 { LexRefl(a[1..]); }
  }

  lemma {:induction false} LexTotal(a: seq<int>, b: seq<int>)
    ensures LexLe(a, b) || LexLe(b, a)
    decreases |a|
  {
    if |a| > 0 && |b| > 0 && a[0] == b[0] { LexTotal(a[1..], b[1..]); }
  }

  lemma {:induction false} LexTrans(a: seq<int>, b: seq<int>, c: seq<int>)
    requires LexLe(a, b) && LexLe(b, c)
    ensures LexLe(a, c)
    decreases |a|
  {
    if |a| > 0 && a[0] == b[0] && b[0] == c[0] { LexTrans(a[1..], b[1..], c[1..]); }
  }

  lemma {:induction false} LexAntisym(a: seq<int>, b: seq<int>)
    requires LexLe(a, b) && LexLe(b, a)
    ensures a == b
    decreases |a|
  {
    if |a| > 0 {
      LexAntisym(a[1..], b[1..]);
      assert a == [a[0]] + a[1..] && b == [b[0]] + b[1..];
    }
  }

  /** A string as its code points: the order Python compares strings in. */
  function Codes(s: string): (r: seq<int>)
    ensures |r| == |s|
  {
    seq(|s|, i requires 0 <= i < |s| => s[i] as int)
  }

  /** Different strings have different code point sequences. */
  lemma CodesInjective(a: string, b: string)
    requires Codes(a) == Codes(b)
    ensures a == b
  {
    forall i | 0 <= i < |a|
      ensures a[i] == b[i]
    {
      assert Codes(a)[i] == Codes(b)[i];
    }
  }

  /** The elements of `s` are in non-decreasing key order. */
  ghost predicate Sorted<T>(s: seq<T>, key: T -> seq<int>)
  {
    forall i, j :: 0 <= i < j < |s| ==> LexLe(key(s[i]), key(s[j]))
  }

  /** Inserts `x` after every element whose key is at most `x`'s: the step
      of a stable insertion sort. */
  function Insert<T>(s: seq<T>, x: T, key: T -> seq<int>): seq<T>
  {
    if |s| == 0 then [x]
    else if LexLe(key(s[|s| - 1]), key(x)) then s + [x]
    else Insert(s[..|s| - 1], x, key) + [s[|s| - 1]]
  }

  /** Stable sort of `s` by `key`. */
  function SortBy<T>(s: seq<T>, key: T -> seq<int>): seq<T>
  {
    if |s| == 0 then [] else Insert(SortBy(s[..|s| - 1], key), s[|s| - 1], key)
  }

  /** The elements of `s` whose key is `k`, in their order in `s`. */
  function WithKey<T>(s: seq<T>, key: T -> seq<int>, k: seq<int>): seq<T>
  {
    if |s| == 0 then []
    else WithKey(s[..|s| - 1], key, k) + (if key(s[|s| - 1]) == k then [s[|s| - 1]] else [])
  }

  lemma {:induction false} WithKeyAppend<T>(s: seq<T>, x: T, key: T -> seq<int>, k: seq<int>)
    ensures WithKey(s + [x], key, k) == WithKey(s, key, k) + (if key(x) == k then [x] else [])
  {
    assert (s + [x])[..|s|] == s;
  }

  lemma {:induction false} InsertMultiset<T>(s: seq<T>, x: T, key: T -> seq<int>)
    ensures multiset(Insert(s, x, key)) == multiset(s) + multiset{x}
    decreases |s|
  {
    if |s| > 0 && !LexLe(key(s[|s| - 1]), key(x)) {
      var init, last := s[..|s| - 1], s[|s| - 1];
      assert s == init + [last];
      InsertMultiset(init, x, key);
    }
  }

  lemma {:induction false} InsertSorted<T>(s: seq<T>, x: T, key: T -> seq<int>)
    requires Sorted(s, key)
    ensures Sorted(Insert(s, x, key), key)
    decreases |s|
  {
    if |s| == 0 { return; }
    var init, last := s[..|s| - 1], s[|s| - 1];
    if LexLe(key(last), key(x)) {
      var r := s + [x];
      forall i, j | 0 <= i < j < |r| ensures LexLe(key(r[i]), key(r[j])) {
        if j == |s| && i < |s| - 1 { LexTrans(key(s[i]), key(last), key(x)); }
      }
    } else {
      assert Sorted(init, key);
      InsertSorted(init, x, key);
      InsertMultiset(init, x, key);
      var mid := Insert(init, x, key);
      var r := mid + [last];
      assert Insert(s, x, key) == r;
      LexTotal(key(last), key(x));
      forall i | 0 <= i < |mid| ensures LexLe(key(mid[i]), key(last)) {
        assert mid[i] in multiset(init) + multiset{x};
        if mid[i] != x {
          var m :| 0 <= m < |init| && init[m] == mid[i];
          assert s[m] == mid[i];
        }
      }
    }
  }

  lemma {:induction false} InsertWithKey<T>(s: seq<T>, x: T, key: T -> seq<int>, k: seq<int>)
    ensures WithKey(Insert(s, x, key), key, k) == WithKey(s, key, k) + (if key(x) == k then [x] else [])
    decreases |s|
  {
    if |s| == 0 {
      WithKeyAppend([], x, key, k);
      assert [] + [x] == [x];
      return;
    }
    var init, last := s[..|s| - 1], s[|s| - 1];
    assert s == init + [last];
    if LexLe(key(last), key(x)) {
      WithKeyAppend(s, x, key, k);
    } else {
      InsertWithKey(init, x, key, k);
      WithKeyAppend(Insert(init, x, key), last, key, k);
      WithKeyAppend(init, last, key, k);
      if key(x) == k && key(last) == k { LexRefl(k); }
    }
  }

  /** `SortBy` returns a sorted permutation of its input that keeps the
      relative order of elements with equal keys (it is stable). */
  lemma {:induction false} SortByCorrect<T>(s: seq<T>, key: T -> seq<int>)
    ensures Sorted(SortBy(s, key), key)
    ensures multiset(SortBy(s, key)) == multiset(s)
    ensures forall k :: WithKey(SortBy(s, key), key, k) == WithKey(s, key, k)
    decreases |s|
  {
    if |s| > 0 {
      var init, last := s[..|s| - 1], s[|s| - 1];
      assert s == init + [last];
      SortByCorrect(init, key);
      InsertSorted(SortBy(init, key), last, key);
      InsertMultiset(SortBy(init, key), last, key);
      forall k ensures WithKey(SortBy(s, key), key, k) == WithKey(s, key, k) {
        InsertWithKey(SortBy(init, key), last, key, k);
        WithKeyAppend(init, last, key, k);
      }
    }
  }

  lemma TailFacts<T>(x: seq<T>, key: T -> seq<int>)
    requires |x| > 0
    ensures Sorted(x, key) ==> Sorted(x[1..], key)
    ensures multiset(x[1..]) == multiset(x) - multiset{x[0]}
  {
    assert x == [x[0]] + x[1..];
  }

  /** Elements of `m` that share a key are equal. */
  ghost predicate KeyDetermines<T>(m: multiset<T>, key: T -> seq<int>)
  {
    forall a, b :: a in m && b in m && key(a) == key(b) ==> a == b
  }

  /** Two sorted arrangements of the same elements are the same sequence
      when the key tells the elements apart. */
  lemma {:induction false} SortedSame<T>(x: seq<T>, y: seq<T>, key: T -> seq<int>)
    requires Sorted(x, key) && Sorted(y, key) && multiset(x) == multiset(y)
    requires KeyDetermines(multiset(x), key)
    ensures x == y
    decreases |x|
  {
    assert |y| == |multiset(y)| == |multiset(x)| == |x|;
    if |x| > 0 {
      SortedSameHeads(x, y, key);
      SortedSameTails(x, y, key);
      SortedSame(x[1..], y[1..], key);
      assert x == [x[0]] + x[1..] && y == [y[0]] + y[1..];
    }
  }

  lemma SortedSameHeads<T>(x: seq<T>, y: seq<T>, key: T -> seq<int>)
    requires Sorted(x, key) && Sorted(y, key) && multiset(x) == multiset(y)
    requires KeyDetermines(multiset(x), key)
    requires |x| > 0 && |y| > 0
    ensures x[0] == y[0]
  {
    assert x[0] in multiset(y);
    var j :| 0 <= j < |y| && y[j] == x[0];
    assert y[0] in multiset(x);
    var i :| 0 <= i < |x| && x[i] == y[0];
    LexRefl(key(x[0]));
    LexRefl(key(y[0]));
    assert LexLe(key(x[0]), key(x[i]));
    assert LexLe(key(y[0]), key(y[j]));
    LexAntisym(key(x[0]), key(y[0]));
  }

  lemma KeyDeterminesSub<T>(m: multiset<T>, n: multiset<T>, key: T -> seq<int>)
    requires KeyDetermines(m, key) && n <= m
    ensures KeyDetermines(n, key)
  {
  }

  lemma SortedSameTails<T>(x: seq<T>, y: seq<T>, key: T -> seq<int>)
    requires Sorted(x, key) && Sorted(y, key) && multiset(x) == multiset(y)
    requires KeyDetermines(multiset(x), key)
    requires |x| > 0 && |y| > 0 && x[0] == y[0]
    ensures Sorted(x[1..], key) && Sorted(y[1..], key)
    ensures multiset(x[1..]) == multiset(y[1..])
    ensures KeyDetermines(multiset(x[1..]), key)
  {
    TailFacts(x, key);
    TailFacts(y, key);
    KeyDeterminesSub(multiset(x), multiset(x[1..]), key);
  }
}

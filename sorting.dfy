/**
 * Python's ordering of `str` values and the stable sorts the engine relies on:
 * `sorted(a_set)`, `sorted(xs, key=...)` and `xs.sort(key=..., reverse=True)`.
 * Python's sort is stable, also with `reverse=True`: items with equal keys keep
 * their input order. Each sort below is an insertion sort whose results are
 * proved sorted, a permutation of the input, and stable.
 */
module Sorting {

  /** Python's `a < b` on `str`: lexicographic comparison by code point. */
  predicate StrLess(a: string, b: string)
    decreases |a|
  {
    if |a| == 0 then |b| > 0
    else if |b| == 0 then false
    else if a[0] != b[0] then a[0] < b[0]
    else StrLess(a[1..], b[1..])
  }

  lemma {:induction false} StrLessIrreflexive(a: string)
    ensures !StrLess(a, a)
    decreases |a|
  {
    if |a| > 0 {
      StrLessIrreflexive(a[1..]);
    }
  }

  lemma {:induction false} StrLessTransitive(a: string, b: string, c: string)
    requires StrLess(a, b) && StrLess(b, c)
    ensures StrLess(a, c)
    decreases |a|
  {
    if |a| > 0 && |b| > 0 && |c| > 0 && a[0] == b[0] && b[0] == c[0] {
      StrLessTransitive(a[1..], b[1..], c[1..]);
    }
  }

  /** Any two distinct strings are ordered one way or the other. */
  lemma {:induction false} StrLessTotal(a: string, b: string)
    ensures a == b || StrLess(a, b) || StrLess(b, a)
    decreases |a|
  {
    if |a| > 0 && |b| > 0 && a[0] == b[0] {
      StrLessTotal(a[1..], b[1..]);
      if a[1..] == b[1..] {
        assert a == [a[0]] + a[1..] && b == [b[0]] + b[1..];
      }
    }
  }

  lemma StrLessAsymmetric(a: string, b: string)
    ensures !(StrLess(a, b) && StrLess(b, a))
  {
    if StrLess(a, b) && StrLess(b, a) {
      StrLessTransitive(a, b, a);
      StrLessIrreflexive(a);
    }
  }

  /** `a <= b` on strings. */
  predicate StrLeq(a: string, b: string) {
    !StrLess(b, a)
  }

  lemma StrLeqTransitive(a: string, b: string, c: string)
    requires StrLeq(a, b) && StrLeq(b, c)
    ensures StrLeq(a, c)
  {
    StrLessTotal(a, b);
    if StrLess(c, a) && StrLess(a, b) {
      StrLessTransitive(c, a, b);
    }
  }

  // ---------------------------------------------------------------------------
  // sorted(xs, key=k) with a string key

  predicate SortedByKey<T>(s: seq<T>, key: T -> string) {
    forall i, j :: 0 <= i < j < |s| ==> StrLeq(key(s[i]), key(s[j]))
  }

  /** The items of `s` whose key is `k`, in their order in `s`. */
  function WithKey<T>(s: seq<T>, key: T -> string, k: string): (r: seq<T>)
    ensures |r| <= |s|
  {
    if |s| == 0 then []
    else (if key(s[0]) == k then [s[0]] else []) + WithKey(s[1..], key, k)
  }

  /** Puts `x` in front of the first item whose key is not smaller than its own. */
  function InsertByKey<T>(x: T, s: seq<T>, key: T -> string): seq<T> {
    if |s| == 0 then [x]
    else if StrLeq(key(x), key(s[0])) then [x] + s
    else [s[0]] + InsertByKey(x, s[1..], key)
  }

  /** `sorted(s, key=key)`. */
  function SortByKey<T>(s: seq<T>, key: T -> string): seq<T> {
    if |s| == 0 then [] else InsertByKey(s[0], SortByKey(s[1..], key), key)
  }

  lemma {:induction false} InsertByKeyPermutes<T>(x: T, s: seq<T>, key: T -> string)
    ensures multiset(InsertByKey(x, s, key)) == multiset(s) + multiset{x}
    decreases |s|
  {
    if |s| > 0 && !StrLeq(key(x), key(s[0])) {
      InsertByKeyPermutes(x, s[1..], key);
      assert s == [s[0]] + s[1..];
    }
  }

  /** Every item of `InsertByKey(x, s, key)` is `x` or an item of `s`. */
  lemma InsertByKeyMembers<T>(x: T, s: seq<T>, key: T -> string, j: int)
    requires 0 <= j < |InsertByKey(x, s, key)|
    ensures InsertByKey(x, s, key)[j] == x || InsertByKey(x, s, key)[j] in s
  {
    var r := InsertByKey(x, s, key);
    InsertByKeyPermutes(x, s, key);
    assert r[j] in multiset(r);
  }

  lemma {:induction false} InsertByKeySorted<T>(x: T, s: seq<T>, key: T -> string)
    requires SortedByKey(s, key)
    ensures SortedByKey(InsertByKey(x, s, key), key)
    decreases |s|
  {
    var r := InsertByKey(x, s, key);
    if |s| == 0 {
    } else if StrLeq(key(x), key(s[0])) {
      assert r == [x] + s;
      forall i, j | 0 <= i < j < |r| ensures StrLeq(key(r[i]), key(r[j])) {
        if i == 0 && j > 1 {
          StrLeqTransitive(key(x), key(s[0]), key(s[j - 1]));
        }
      }
    } else {
      InsertByKeySorted(x, s[1..], key);
      var t := InsertByKey(x, s[1..], key);
      assert r == [s[0]] + t;
      StrLessTotal(key(x), key(s[0]));
      forall j | 0 <= j < |t| ensures StrLeq(key(s[0]), key(t[j])) {
        InsertByKeyMembers(x, s[1..], key, j);
        if t[j] != x {
          var m :| 0 <= m < |s[1..]| && s[1..][m] == t[j];
          assert s[m + 1] == t[j];
        } else {
          StrLessAsymmetric(key(x), key(s[0]));
        }
      }
      assert forall i, j :: 0 < i < j < |r| ==> r[i] == t[i - 1] && r[j] == t[j - 1];
    }
  }

  /** `WithKey` of a sequence with a known first item. */
  lemma WithKeyCons<T>(a: T, t: seq<T>, key: T -> string, k: string)
    ensures WithKey([a] + t, key, k) == (if key(a) == k then [a] else []) + WithKey(t, key, k)
  {
    assert ([a] + t)[0] == a;
    assert ([a] + t)[1..] == t;
  }

  lemma {:induction false} InsertByKeyStable<T>(x: T, s: seq<T>, key: T -> string, k: string)
    ensures WithKey(InsertByKey(x, s, key), key, k) == WithKey([x] + s, key, k)
    decreases |s|
  {
    if |s| > 0 && !StrLeq(key(x), key(s[0])) {
      var t := InsertByKey(x, s[1..], key);
      InsertByKeyStable(x, s[1..], key, k);
      assert InsertByKey(x, s, key) == [s[0]] + t;
      WithKeyCons(s[0], t, key, k);
      WithKeyCons(x, s[1..], key, k);
      WithKeyCons(x, s, key, k);
      assert s == [s[0]] + s[1..];
      WithKeyCons(s[0], s[1..], key, k);
      if key(x) == k {
        assert key(s[0]) != k by { StrLessIrreflexive(k); }
      }
    } else {
      WithKeyCons(x, s, key, k);
    }
  }

  lemma InsertByKeyFacts<T>(x: T, s: seq<T>, key: T -> string)
    requires SortedByKey(s, key)
    ensures SortedByKey(InsertByKey(x, s, key), key)
    ensures multiset(InsertByKey(x, s, key)) == multiset(s) + multiset{x}
    ensures forall k :: WithKey(InsertByKey(x, s, key), key, k) == WithKey([x] + s, key, k)
  {
    InsertByKeySorted(x, s, key);
    InsertByKeyPermutes(x, s, key);
    forall k ensures WithKey(InsertByKey(x, s, key), key, k) == WithKey([x] + s, key, k) {
      InsertByKeyStable(x, s, key, k);
    }
  }

  lemma {:induction false} SortByKeyPermutes<T>(s: seq<T>, key: T -> string)
    ensures multiset(SortByKey(s, key)) == multiset(s)
    decreases |s|
  {
    if |s| > 0 {
      SortByKeyPermutes(s[1..], key);
      InsertByKeyPermutes(s[0], SortByKey(s[1..], key), key);
      assert s == [s[0]] + s[1..];
      assert multiset(s) == multiset(s[1..]) + multiset{s[0]};
    }
  }

  lemma {:induction false} SortByKeySorted<T>(s: seq<T>, key: T -> string)
    ensures SortedByKey(SortByKey(s, key), key)
    decreases |s|
  {
    if |s| > 0 {
      SortByKeySorted(s[1..], key);
      InsertByKeySorted(s[0], SortByKey(s[1..], key), key);
    }
  }

  lemma {:induction false} SortByKeyStable<T>(s: seq<T>, key: T -> string, k: string)
    ensures WithKey(SortByKey(s, key), key, k) == WithKey(s, key, k)
    decreases |s|
  {
    if |s| > 0 {
      SortByKeyStable(s[1..], key, k);
      InsertByKeyStable(s[0], SortByKey(s[1..], key), key, k);
      WithKeyCons(s[0], SortByKey(s[1..], key), key, k);
      WithKeyCons(s[0], s[1..], key, k);
      assert s == [s[0]] + s[1..];
    }
  }

  /** `sorted(s, key=key)` is sorted, a permutation of `s`, and stable. */
  lemma SortByKeyFacts<T>(s: seq<T>, key: T -> string)
    ensures SortedByKey(SortByKey(s, key), key)
    ensures multiset(SortByKey(s, key)) == multiset(s)
    ensures forall k :: WithKey(SortByKey(s, key), key, k) == WithKey(s, key, k)
    ensures |SortByKey(s, key)| == |s|
  {
    SortByKeySorted(s, key);
    SortByKeyPermutes(s, key);
    forall k ensures WithKey(SortByKey(s, key), key, k) == WithKey(s, key, k) {
      SortByKeyStable(s, key, k);
    }
    assert |SortByKey(s, key)| == |multiset(SortByKey(s, key))|;
  }

  // ---------------------------------------------------------------------------
  // xs.sort(key=k, reverse=True) with a real key

  predicate SortedDescending<T>(s: seq<T>, key: T -> real) {
    forall i, j :: 0 <= i < j < |s| ==> key(s[i]) >= key(s[j])
  }

  /** The items of `s` whose key equals `c`, in their order in `s`. */
  function WithValue<T>(s: seq<T>, key: T -> real, c: real): (r: seq<T>)
    ensures |r| <= |s|
  {
    if |s| == 0 then []
    else (if key(s[0]) == c then [s[0]] else []) + WithValue(s[1..], key, c)
  }

  /** Puts `x` in front of the first item whose key is not larger than its own. */
  function InsertDescending<T>(x: T, s: seq<T>, key: T -> real): seq<T> {
    if |s| == 0 then [x]
    else if key(s[0]) <= key(x) then [x] + s
    else [s[0]] + InsertDescending(x, s[1..], key)
  }

  /** `sorted(s, key=key, reverse=True)`. */
  function SortDescending<T>(s: seq<T>, key: T -> real): seq<T> {
    if |s| == 0 then [] else InsertDescending(s[0], SortDescending(s[1..], key), key)
  }

  lemma {:induction false} InsertDescendingPermutes<T>(x: T, s: seq<T>, key: T -> real)
    ensures multiset(InsertDescending(x, s, key)) == multiset(s) + multiset{x}
    decreases |s|
  {
    if |s| > 0 && key(s[0]) > key(x) {
      InsertDescendingPermutes(x, s[1..], key);
      assert s == [s[0]] + s[1..];
    }
  }

  lemma {:induction false} InsertDescendingSorted<T>(x: T, s: seq<T>, key: T -> real)
    requires SortedDescending(s, key)
    ensures SortedDescending(InsertDescending(x, s, key), key)
    decreases |s|
  {
    var r := InsertDescending(x, s, key);
    if |s| > 0 && key(s[0]) > key(x) {
      InsertDescendingSorted(x, s[1..], key);
      InsertDescendingPermutes(x, s[1..], key);
      var t := InsertDescending(x, s[1..], key);
      assert r == [s[0]] + t;
      forall j | 0 <= j < |t| ensures key(s[0]) >= key(t[j]) {
        var y := t[j];
        assert y in multiset(t);
        assert y in multiset(s[1..]) + multiset{x};
        if y != x {
          assert y in s[1..];
          var m :| 0 <= m < |s[1..]| && s[1..][m] == y;
          assert s[m + 1] == y;
        }
      }
    }
  }

  /** `WithValue` of a sequence with a known first item. */
  lemma WithValueCons<T>(a: T, t: seq<T>, key: T -> real, c: real)
    ensures WithValue([a] + t, key, c) == (if key(a) == c then [a] else []) + WithValue(t, key, c)
  {
    assert ([a] + t)[0] == a;
    assert ([a] + t)[1..] == t;
  }

  lemma {:induction false} InsertDescendingStable<T>(x: T, s: seq<T>, key: T -> real, c: real)
    ensures WithValue(InsertDescending(x, s, key), key, c) == WithValue([x] + s, key, c)
    decreases |s|
  {
    if |s| > 0 && key(s[0]) > key(x) {
      var t := InsertDescending(x, s[1..], key);
      InsertDescendingStable(x, s[1..], key, c);
      assert InsertDescending(x, s, key) == [s[0]] + t;
      WithValueCons(s[0], t, key, c);
      WithValueCons(x, s[1..], key, c);
      WithValueCons(x, s, key, c);
      assert s == [s[0]] + s[1..];
      WithValueCons(s[0], s[1..], key, c);
    } else {
      WithValueCons(x, s, key, c);
    }
  }

  lemma InsertDescendingFacts<T>(x: T, s: seq<T>, key: T -> real)
    requires SortedDescending(s, key)
    ensures SortedDescending(InsertDescending(x, s, key), key)
    ensures multiset(InsertDescending(x, s, key)) == multiset(s) + multiset{x}
    ensures forall c :: WithValue(InsertDescending(x, s, key), key, c) == WithValue([x] + s, key, c)
  {
    InsertDescendingSorted(x, s, key);
    InsertDescendingPermutes(x, s, key);
    forall c ensures WithValue(InsertDescending(x, s, key), key, c) == WithValue([x] + s, key, c) {
      InsertDescendingStable(x, s, key, c);
    }
  }

  lemma {:induction false} SortDescendingPermutes<T>(s: seq<T>, key: T -> real)
    ensures multiset(SortDescending(s, key)) == multiset(s)
    decreases |s|
  {
    if |s| > 0 {
      SortDescendingPermutes(s[1..], key);
      InsertDescendingPermutes(s[0], SortDescending(s[1..], key), key);
      assert s == [s[0]] + s[1..];
      assert multiset(s) == multiset(s[1..]) + multiset{s[0]};
    }
  }

  lemma {:induction false} SortDescendingSorted<T>(s: seq<T>, key: T -> real)
    ensures SortedDescending(SortDescending(s, key), key)
    decreases |s|
  {
    if |s| > 0 {
      SortDescendingSorted(s[1..], key);
      InsertDescendingSorted(s[0], SortDescending(s[1..], key), key);
    }
  }

  lemma {:induction false} SortDescendingStable<T>(s: seq<T>, key: T -> real, c: real)
    ensures WithValue(SortDescending(s, key), key, c) == WithValue(s, key, c)
    decreases |s|
  {
    if |s| > 0 {
      SortDescendingStable(s[1..], key, c);
      InsertDescendingStable(s[0], SortDescending(s[1..], key), key, c);
      WithValueCons(s[0], SortDescending(s[1..], key), key, c);
      WithValueCons(s[0], s[1..], key, c);
      assert s == [s[0]] + s[1..];
    }
  }

  /** `sorted(s, key=key, reverse=True)` is non-increasing, a permutation of `s`, and stable. */
  lemma SortDescendingFacts<T>(s: seq<T>, key: T -> real)
    ensures SortedDescending(SortDescending(s, key), key)
    ensures multiset(SortDescending(s, key)) == multiset(s)
    ensures forall c :: WithValue(SortDescending(s, key), key, c) == WithValue(s, key, c)
    ensures |SortDescending(s, key)| == |s|
  {
    SortDescendingSorted(s, key);
    SortDescendingPermutes(s, key);
    forall c ensures WithValue(SortDescending(s, key), key, c) == WithValue(s, key, c) {
      SortDescendingStable(s, key, c);
    }
    assert |SortDescending(s, key)| == |multiset(SortDescending(s, key))|;
  }

  // ---------------------------------------------------------------------------
  // sorted(a_set) for a set of strings

  /** `m` is a least member of `s`. */
  predicate IsMinimum(m: string, s: set<string>) {
    m in s && forall x :: x in s ==> StrLeq(m, x)
  }

  /** Adding `y` to a set whose least member is `m` gives a set whose least member is the smaller of the two. */
  lemma MinimumStep(s: set<string>, y: string, m: string)
    requires y in s && IsMinimum(m, s - {y})
    ensures IsMinimum(if StrLess(y, m) then y else m, s)
  {
    StrLessIrreflexive(y);
    StrLessTotal(m, y);
    if StrLess(y, m) {
      StrLessAsymmetric(y, m);
      forall x | x in s - {y} ensures StrLeq(y, x) {
        StrLeqTransitive(y, m, x);
      }
    }
  }

  lemma {:induction false} MinimumExists(s: set<string>)
    requires s != {}
    ensures exists m :: IsMinimum(m, s)
    decreases |s|
  {
    var y :| y in s;
    if s - {y} == {} {
      assert s == {y};
      StrLessIrreflexive(y);
      assert IsMinimum(y, s);
    } else {
      MinimumExists(s - {y});
      var m :| IsMinimum(m, s - {y});
      MinimumStep(s, y, m);
    }
  }

  lemma StrLessTotalAll()
    ensures forall a: string, b: string :: a == b || StrLess(a, b) || StrLess(b, a)
  {
    forall a: string, b: string ensures a == b || StrLess(a, b) || StrLess(b, a) {
      StrLessTotal(a, b);
    }
  }

  /** `min(s)` for a non-empty set of strings. */
  function MinOf(s: set<string>): (m: string)
    requires s != {}
    ensures m in s && forall x :: x in s ==> StrLeq(m, x)
  {
    MinimumExists(s);
    StrLessTotalAll();
    var m :| IsMinimum(m, s);
    m
  }

  /** `sorted(s)`: the members of `s` in strictly increasing order. */
  function SortedOf(s: set<string>): (r: seq<string>)
    ensures |r| == |s|
    ensures forall x :: x in r <==> x in s
    ensures forall i, j :: 0 <= i < j < |r| ==> StrLess(r[i], r[j])
    decreases |s|
  {
    if s == {} then []
    else
      var m := MinOf(s);
      var rest := SortedOf(s - {m});
      assert forall j :: 0 <= j < |rest| ==> rest[j] in s - {m};
      assert forall j :: 0 <= j < |rest| ==> StrLess(m, rest[j]) by {
        forall j | 0 <= j < |rest| ensures StrLess(m, rest[j]) {
          StrLessTotal(m, rest[j]);
        }
      }
      [m] + rest
  }
}

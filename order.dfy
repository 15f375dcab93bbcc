/**
 * Python's ordering of strings (code point by code point, a proper prefix
 * first) and `sorted(xs, key=...)` over it, as used by `sortMe` and
 * `View.getFieldsSorted`.
 */
module Order {

  /** `a < b` on Python strings. */
  predicate StrLt(a: string, b: string)
  {
    if a == [] then b != []
    else if b == [] then false
    else a[0] < b[0] || (a[0] == b[0] && StrLt(a[1..], b[1..]))
  }

  predicate StrLe(a: string, b: string) { a == b || StrLt(a, b) }

  lemma {:induction false} StrLtIrreflexive(a: string)
    ensures !StrLt(a, a)
  {
    if a != [] {
      StrLtIrreflexive(a[1..]);
    }
  }

  lemma {:induction false} StrLtTransitive(a: string, b: string, c: string)
    requires StrLt(a, b) && StrLt(b, c)
    ensures StrLt(a, c)
  {
    if a != [] && b != [] && c != [] && a[0] == b[0] == c[0] {
      StrLtTransitive(a[1..], b[1..], c[1..]);
    }
  }

  /** Any two different strings are ordered one way or the other. */
  lemma {:induction false} StrLtTotal(a: string, b: string)
    requires a != b
    ensures StrLt(a, b) || StrLt(b, a)
  {
    if a != [] && b != [] && a[0] == b[0] {
      assert a == [a[0]] + a[1..] && b == [b[0]] + b[1..];
      StrLtTotal(a[1..], b[1..]);
    }
  }

  lemma {:induction false} StrLtAsymmetric(a: string, b: string)
    ensures StrLt(a, b) ==> !StrLt(b, a)
  {
    if a != [] && b != [] {
      StrLtAsymmetric(a[1..], b[1..]);
    }
  }

  lemma StrLeAntisymmetric(a: string, b: string)
    ensures StrLe(a, b) && StrLe(b, a) ==> a == b
  {
    StrLtAsymmetric(a, b);
  }

  /** A common prefix does not change how two strings compare. */
  lemma {:induction false} StrLtPrefix(p: string, a: string, b: string)
    ensures StrLt(p + a, p + b) <==> StrLt(a, b)
  {
    if p != [] {
      assert (p + a)[0] == p[0] == (p + b)[0];
      assert (p + a)[1..] == p[1..] + a && (p + b)[1..] == p[1..] + b;
      StrLtPrefix(p[1..], a, b);
    } else {
      assert p + a == a && p + b == b;
    }
  }

  /** Consecutive elements are in non-decreasing key order. */
  ghost predicate SortedBy<T>(xs: seq<T>, key: T -> string)
  {
    forall i, j :: 0 <= i < j < |xs| ==> StrLe(key(xs[i]), key(xs[j]))
  }

  /** No two elements share a key. */
  ghost predicate DistinctKeys<T>(xs: seq<T>, key: T -> string)
  {
    forall i, j :: 0 <= i < j < |xs| ==> key(xs[i]) != key(xs[j])
  }

  /** Insert `x` after every element whose key is not greater. */
  function Insert<T>(x: T, xs: seq<T>, key: T -> string): (r: seq<T>)
    ensures multiset(r) == multiset(xs) + multiset{x}
    ensures |r| == |xs| + 1
  {
    if xs == [] then [x]
    else if StrLt(key(x), key(xs[0])) then [x] + xs
    else
      assert xs == [xs[0]] + xs[1..];
      [xs[0]] + Insert(x, xs[1..], key)
  }

  /**
   * `sorted(xs, key=key)` as an insertion sort. It is not stable (equal keys
   * come out reversed), which no caller can observe: every caller sorts
   * items with distinct keys (`SortByDeterministic`).
   */
  function SortBy<T>(xs: seq<T>, key: T -> string): (r: seq<T>)
    ensures multiset(r) == multiset(xs)
    ensures |r| == |xs|
  {
    if xs == [] then []
    else
      assert xs == [xs[0]] + xs[1..];
      Insert(xs[0], SortBy(xs[1..], key), key)
  }

  lemma {:induction false} InsertSorted<T>(x: T, xs: seq<T>, key: T -> string)
    requires SortedBy(xs, key)
    ensures SortedBy(Insert(x, xs, key), key)
  {
    if xs == [] {
    } else if StrLt(key(x), key(xs[0])) {
      var r := [x] + xs;
      forall i, j | 0 <= i < j < |r| ensures StrLe(key(r[i]), key(r[j])) {
        if i == 0 && j > 1 {
          assert StrLe(key(xs[0]), key(xs[j - 1]));
          if key(xs[0]) != key(xs[j - 1]) {
            StrLtTransitive(key(x), key(xs[0]), key(xs[j - 1]));
          }
        }
      }
    } else {
      InsertSorted(x, xs[1..], key);
      var t := Insert(x, xs[1..], key);
      var r := [xs[0]] + t;
      forall i, j | 0 <= i < j < |r| ensures StrLe(key(r[i]), key(r[j])) {
        if i == 0 {
          assert r[j] in multiset(t);
          assert r[j] in multiset(xs[1..]) + multiset{x};
          if r[j] == x {
            if key(x) != key(xs[0]) {
              StrLtTotal(key(x), key(xs[0]));
            }
          } else {
            assert r[j] in xs[1..];
            var k :| 0 <= k < |xs[1..]| && xs[1..][k] == r[j];
            assert xs[k + 1] == r[j];
          }
        } else {
          assert r[i] == t[i - 1] && r[j] == t[j - 1];
        }
      }
    }
  }

  /** The result of `sorted` is in key order. */
  lemma {:induction false} SortBySorted<T>(xs: seq<T>, key: T -> string)
    ensures SortedBy(SortBy(xs, key), key)
  {
    if xs != [] {
      SortBySorted(xs[1..], key);
      InsertSorted(xs[0], SortBy(xs[1..], key), key);
    }
  }

  /**
   * Two key-ordered sequences with the same elements and pairwise different
   * keys are equal.
   */
  lemma {:induction false} SortedUnique<T>(a: seq<T>, b: seq<T>, key: T -> string)
    requires SortedBy(a, key) && SortedBy(b, key)
    requires DistinctKeys(a, key)
    requires multiset(a) == multiset(b)
    ensures a == b
  {
    if a == [] {
      assert |b| == |multiset(b)| == 0;
    } else {
      HeadsEqual(a, b, key);
      assert multiset(a[1..]) == multiset(b[1..]) by {
        TailMultiset(a);
        TailMultiset(b);
      }
      assert SortedBy(a[1..], key) && SortedBy(b[1..], key) by {
        SortedTail(a, key);
        SortedTail(b, key);
      }
      assert DistinctKeys(a[1..], key) by {
        forall i, j | 0 <= i < j < |a| - 1
          ensures key(a[1..][i]) != key(a[1..][j])
        {
          assert a[1..][i] == a[i + 1] && a[1..][j] == a[j + 1];
        }
      }
      SortedUnique(a[1..], b[1..], key);
      assert a == [a[0]] + a[1..] && b == [b[0]] + b[1..];
    }
  }

  /** The smallest key of `a` is that of `b`, and with distinct keys it is the same element. */
  lemma HeadsEqual<T>(a: seq<T>, b: seq<T>, key: T -> string)
    requires a != [] && SortedBy(a, key) && SortedBy(b, key)
    requires DistinctKeys(a, key)
    requires multiset(a) == multiset(b)
    ensures b != [] && a[0] == b[0]
  {
    assert a[0] in multiset(b) && b[0] in multiset(a);
    var i :| 0 <= i < |a| && a[i] == b[0];
    var j :| 0 <= j < |b| && b[j] == a[0];
    assert StrLe(key(a[0]), key(b[0])) by {
      if i > 0 { assert StrLe(key(a[0]), key(a[i])); }
    }
    assert StrLe(key(b[0]), key(a[0])) by {
      if j > 0 { assert StrLe(key(b[0]), key(b[j])); }
    }
    StrLeAntisymmetric(key(a[0]), key(b[0]));
  }

  lemma TailMultiset<T>(a: seq<T>)
    requires a != []
    ensures multiset(a[1..]) == multiset(a) - multiset{a[0]}
  {
    assert a == [a[0]] + a[1..];
  }

  lemma SortedTail<T>(a: seq<T>, key: T -> string)
    requires a != [] && SortedBy(a, key)
    ensures SortedBy(a[1..], key)
    ensures DistinctKeys(a, key) ==> DistinctKeys(a[1..], key)
  {
    assert forall i :: 0 <= i < |a[1..]| ==> a[1..][i] == a[i + 1];
  }

  /**
   * With pairwise different keys the result of `sorted` depends only on which
   * elements there are, never on the order they were inserted in.
   */
  lemma SortByDeterministic<T>(xs: seq<T>, ys: seq<T>, key: T -> string)
    requires DistinctKeys(xs, key)
    requires multiset(xs) == multiset(ys)
    ensures SortBy(xs, key) == SortBy(ys, key)
  {
    SortBySorted(xs, key);
    SortBySorted(ys, key);
    var a := SortBy(xs, key);
    forall i, j | 0 <= i < j < |a| ensures key(a[i]) != key(a[j]) {
      DistinctKeysPermuted(xs, a, key, i, j);
    }
    SortedUnique(a, SortBy(ys, key), key);
  }

  lemma DistinctKeysPermuted<T>(xs: seq<T>, a: seq<T>, key: T -> string, i: int, j: int)
    requires DistinctKeys(xs, key)
    requires multiset(a) <= multiset(xs)
    requires 0 <= i < j < |a|
    ensures key(a[i]) != key(a[j])
  {
    assert a[i] in multiset(xs) && a[j] in multiset(xs);
    var p :| 0 <= p < |xs| && xs[p] == a[i];
    var q :| 0 <= q < |xs| && xs[q] == a[j];
    // equal keys would force p == q, hence a[i] == a[j], an element counted twice in a but once in xs
    CountOnce(xs, key, p);
    TwiceCounted(a, i, j);
  }

  lemma TwiceCounted<T>(a: seq<T>, i: int, j: int)
    requires 0 <= i < j < |a|
    ensures a[i] == a[j] ==> multiset(a)[a[i]] >= 2
  {
    assert a == a[..j] + a[j..];
    assert a[..j][i] == a[i] && a[j..][0] == a[j];
    assert multiset(a) == multiset(a[..j]) + multiset(a[j..]);
  }

  lemma CountOnce<T>(xs: seq<T>, key: T -> string, p: int)
    requires DistinctKeys(xs, key)
    requires 0 <= p < |xs|
    ensures multiset(xs)[xs[p]] == 1
  {
    assert xs == xs[..p] + [xs[p]] + xs[p + 1..];
    assert xs[p] !in multiset(xs[..p]);
    assert xs[p] !in multiset(xs[p + 1..]);
  }
}

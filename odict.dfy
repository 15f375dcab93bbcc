/**
 * Insertion-ordered dictionaries keyed by strings, as Python's `dict`:
 * `update` on a present key keeps that key's position, a new key goes last,
 * and `pop` removes the key keeping the order of the others.
 */
module ODict {
  import opened Results

  type Pairs<V> = seq<(string, V)>

  function Keys<V>(d: Pairs<V>): (ks: seq<string>)
  {
    seq(|d|, i requires 0 <= i < |d| => d[i].0)
  }

  function Values<V>(d: Pairs<V>): (vs: seq<V>)
  {
    seq(|d|, i requires 0 <= i < |d| => d[i].1)
  }

  /** Python dictionaries never hold a key twice. */
  predicate UniqueKeys<V>(d: Pairs<V>)
  {
    forall i, j :: 0 <= i < j < |d| ==> d[i].0 != d[j].0
  }

  /** `d.get(k)`: the value stored under `k`, if any. */
  function Get<V>(d: Pairs<V>, k: string): (r: Option<V>)
    ensures r.Some? ==> (k, r.value) in d
  {
    if d == [] then None
    else if d[0].0 == k then Some(d[0].1)
    else Get(d[1..], k)
  }

  /** `d.update({k: v})`: overwrite in place, or append a new key at the end. */
  function Put<V>(d: Pairs<V>, k: string, v: V): (r: Pairs<V>)
    ensures (k, v) in r
    ensures forall p :: p in r ==> p in d || p == (k, v)
  {
    if d == [] then [(k, v)]
    else if d[0].0 == k then [(k, v)] + d[1..]
    else [d[0]] + Put(d[1..], k, v)
  }

  /** `d.pop(k, None)`: drop the key, keep the order of the others. */
  function Pop<V>(d: Pairs<V>, k: string): (r: Pairs<V>)
    ensures |r| <= |d|
    ensures forall p :: p in r ==> p in d && p.0 != k
  {
    if d == [] then []
    else if d[0].0 == k then Pop(d[1..], k)
    else [d[0]] + Pop(d[1..], k)
  }

  lemma KeysTail<V>(d: Pairs<V>, k: string)
    requires d != []
    ensures k in Keys(d) <==> k == d[0].0 || k in Keys(d[1..])
  {
    assert Keys(d) == [d[0].0] + Keys(d[1..]);
  }

  /** A lookup misses exactly when the key is absent. */
  lemma {:induction false} GetMisses<V>(d: Pairs<V>, k: string)
    ensures Get(d, k).None? <==> k !in Keys(d)
  {
    if d != [] {
      KeysTail(d, k);
      GetMisses(d[1..], k);
    }
  }

  /** Last write wins: the key now maps to the new value. */
  lemma {:induction false} PutGet<V>(d: Pairs<V>, k: string, v: V)
    ensures Get(Put(d, k, v), k) == Some(v)
  {
    if d != [] && d[0].0 != k {
      PutGet(d[1..], k, v);
    }
  }

  /** Every other key keeps its value. */
  lemma {:induction false} PutOther<V>(d: Pairs<V>, k: string, v: V, k': string)
    requires k' != k
    ensures Get(Put(d, k, v), k') == Get(d, k')
  {
    if d != [] && d[0].0 != k {
      PutOther(d[1..], k, v, k');
    }
  }

  lemma PutOthers<V>(d: Pairs<V>, k: string, v: V)
    ensures forall k' :: k' != k ==> Get(Put(d, k, v), k') == Get(d, k')
  {
    forall k' | k' != k ensures Get(Put(d, k, v), k') == Get(d, k') {
      PutOther(d, k, v, k');
    }
  }

  /** An overwrite keeps the key's position; a new key goes last. */
  lemma {:induction false} PutKeys<V>(d: Pairs<V>, k: string, v: V)
    ensures k in Keys(d) ==> Keys(Put(d, k, v)) == Keys(d)
    ensures k !in Keys(d) ==> Keys(Put(d, k, v)) == Keys(d) + [k]
  {
    if d == [] {
    } else if d[0].0 == k {
      assert Keys(Put(d, k, v)) == [k] + Keys(d[1..]);
      assert Keys(d) == [k] + Keys(d[1..]);
    } else {
      KeysTail(d, k);
      PutKeys(d[1..], k, v);
      assert Keys(Put(d, k, v)) == [d[0].0] + Keys(Put(d[1..], k, v));
      assert Keys(d) == [d[0].0] + Keys(d[1..]);
    }
  }

  lemma UniqueTail<V>(d: Pairs<V>)
    requires d != [] && UniqueKeys(d)
    ensures UniqueKeys(d[1..]) && d[0].0 !in Keys(d[1..])
  {
    assert forall i, j :: 0 <= i < j < |d[1..]| ==> d[1..][i] == d[i + 1] && d[1..][j] == d[j + 1];
  }

  lemma UniqueCons<V>(p: (string, V), d: Pairs<V>)
    requires UniqueKeys(d) && p.0 !in Keys(d)
    ensures UniqueKeys([p] + d)
  {
    var e := [p] + d;
    forall i, j | 0 <= i < j < |e| ensures e[i].0 != e[j].0 {
      if i > 0 {
        assert e[i] == d[i - 1] && e[j] == d[j - 1];
      } else {
        assert e[j] == d[j - 1];
        assert Keys(d)[j - 1] == d[j - 1].0;
      }
    }
  }

  /** Updating keeps the keys unique. */
  lemma {:induction false} PutUnique<V>(d: Pairs<V>, k: string, v: V)
    requires UniqueKeys(d)
    ensures UniqueKeys(Put(d, k, v))
  {
    PutKeys(d, k, v);
    var r := Put(d, k, v);
    forall i, j | 0 <= i < j < |r| ensures r[i].0 != r[j].0 {
      assert Keys(r)[i] == r[i].0 && Keys(r)[j] == r[j].0;
      if k !in Keys(d) && j == |d| {
        assert Keys(d)[i] == d[i].0;
      }
    }
  }

  /** Writing the same value twice is writing it once. */
  lemma {:induction false} PutTwice<V>(d: Pairs<V>, k: string, v: V)
    ensures Put(Put(d, k, v), k, v) == Put(d, k, v)
  {
    if d != [] && d[0].0 != k {
      PutTwice(d[1..], k, v);
    }
  }

  /** Writing a value a key already holds changes nothing. */
  lemma {:induction false} PutSame<V>(d: Pairs<V>, k: string, v: V)
    requires Get(d, k) == Some(v)
    ensures Put(d, k, v) == d
  {
    if d[0].0 != k {
      PutSame(d[1..], k, v);
    }
  }

  /** With unique keys, each entry is what its key looks up. */
  lemma {:induction false} GetAt<V>(d: Pairs<V>, i: int)
    requires UniqueKeys(d) && 0 <= i < |d|
    ensures Get(d, d[i].0) == Some(d[i].1)
  {
    if i > 0 {
      UniqueTail(d);
      assert d[i].0 != d[0].0;
      assert d[1..][i - 1] == d[i];
      GetAt(d[1..], i - 1);
    }
  }

  /** Two dictionaries with the same keys in the same order and the same lookups are equal. */
  lemma SameLookups<V>(a: Pairs<V>, b: Pairs<V>)
    requires UniqueKeys(a) && UniqueKeys(b) && Keys(a) == Keys(b)
    requires forall k :: Get(a, k) == Get(b, k)
    ensures a == b
  {
    assert |a| == |Keys(a)| == |Keys(b)| == |b|;
    forall i | 0 <= i < |a| ensures a[i] == b[i] {
      assert Keys(a)[i] == Keys(b)[i];
      GetAt(a, i);
      GetAt(b, i);
    }
  }

  /** A value that some key looks up is among the values. */
  lemma GetValue<V>(d: Pairs<V>, k: string)
    requires Get(d, k).Some?
    ensures Get(d, k).value in Values(d)
  {
    var i :| 0 <= i < |d| && d[i] == (k, Get(d, k).value);
    assert Values(d)[i] == d[i].1;
  }

  /** After `pop` the key is gone and every other key keeps its value. */
  lemma {:induction false} PopGet<V>(d: Pairs<V>, k: string, k': string)
    ensures Get(Pop(d, k), k) == None
    ensures k' != k ==> Get(Pop(d, k), k') == Get(d, k')
  {
    if d != [] {
      PopGet(d[1..], k, k');
    }
  }

  /** Popping an absent key changes nothing. */
  lemma {:induction false} PopAbsent<V>(d: Pairs<V>, k: string)
    requires k !in Keys(d)
    ensures Pop(d, k) == d
  {
    if d != [] {
      KeysTail(d, k);
      PopAbsent(d[1..], k);
    }
  }

  /** Popping keeps the keys unique. */
  lemma {:induction false} PopUnique<V>(d: Pairs<V>, k: string)
    requires UniqueKeys(d)
    ensures UniqueKeys(Pop(d, k))
  {
    if d != [] {
      UniqueTail(d);
      PopUnique(d[1..], k);
      if d[0].0 != k {
        var t := Pop(d[1..], k);
        assert d[0].0 !in Keys(t);
        UniqueCons(d[0], t);
      }
    }
  }

  /** Popping a key that is present shortens the dictionary by exactly one entry. */
  lemma {:induction false} PopPresent<V>(d: Pairs<V>, k: string)
    requires UniqueKeys(d)
    requires k in Keys(d)
    ensures |Pop(d, k)| == |d| - 1
  {
    UniqueTail(d);
    KeysTail(d, k);
    if d[0].0 == k {
      PopAbsent(d[1..], k);
    } else {
      PopPresent(d[1..], k);
    }
  }

  /** A key that is not present is added at the end. */
  lemma {:induction false} PutAbsent<V>(d: Pairs<V>, k: string, v: V)
    requires k !in Keys(d)
    ensures Put(d, k, v) == d + [(k, v)]
  {
    if d != [] {
      KeysTail(d, k);
      PutAbsent(d[1..], k, v);
    }
  }

  /** The entry added last is found under its key. */
  lemma {:induction false} GetLast<V>(d: Pairs<V>, k: string, x: V)
    requires k !in Keys(d)
    ensures Get(d + [(k, x)], k) == Some(x)
  {
    if d != [] {
      KeysTail(d, k);
      assert (d + [(k, x)])[1..] == d[1..] + [(k, x)];
      GetLast(d[1..], k, x);
    }
  }

  /** Overwriting the entry added last replaces it where it stands. */
  lemma {:induction false} PutLast<V>(d: Pairs<V>, k: string, a: V, b: V)
    requires k !in Keys(d)
    ensures Put(d + [(k, a)], k, b) == d + [(k, b)]
  {
    if d != [] {
      KeysTail(d, k);
      assert (d + [(k, a)])[1..] == d[1..] + [(k, a)];
      PutLast(d[1..], k, a, b);
    }
  }

  /** Popping the entry added last removes exactly it. */
  lemma {:induction false} PopLast<V>(d: Pairs<V>, k: string, x: V)
    requires k !in Keys(d)
    ensures Pop(d + [(k, x)], k) == d
  {
    if d == [] {
    } else {
      KeysTail(d, k);
      assert (d + [(k, x)])[1..] == d[1..] + [(k, x)];
      PopLast(d[1..], k, x);
    }
  }

  /** With unique keys, `Put` replaces the entry under `k` where it stands, or appends one at the end. */
  lemma {:induction false} PutAt<V>(d: Pairs<V>, k: string, v: V)
    requires UniqueKeys(d)
    ensures |Put(d, k, v)| == if k in Keys(d) then |d| else |d| + 1
    ensures forall i :: 0 <= i < |d| ==> Put(d, k, v)[i] == if d[i].0 == k then (k, v) else d[i]
    ensures k !in Keys(d) ==> Put(d, k, v)[|d|] == (k, v)
  {
    if d != [] {
      UniqueTail(d);
      KeysTail(d, k);
      if d[0].0 != k {
        PutAt(d[1..], k, v);
        assert Put(d, k, v) == [d[0]] + Put(d[1..], k, v);
        forall i | 1 <= i < |d|
          ensures Put(d, k, v)[i] == if d[i].0 == k then (k, v) else d[i]
        {
          assert d[1..][i - 1] == d[i];
        }
      }
    }
  }

  // ------------------------------------------------------------ registries

  /**
   * A registry filled from a list: each item is made into a value, and the
   * value is stored under its key, replacing any value of that key; the
   * first item that cannot be made stops the run.
   */
  function Register<I, V>(d: Pairs<V>, items: seq<I>, make: I -> Result<V>, key: V -> string): Result<Pairs<V>>
    decreases |items|
  {
    if items == [] then Ok(d)
    else
      var v :- make(items[0]);
      Register(Put(d, key(v), v), items[1..], make, key)
  }

  /** The keys of the values the items make. */
  ghost function MadeKeys<I, V>(items: seq<I>, make: I -> Result<V>, key: V -> string): set<string>
  {
    set j | 0 <= j < |items| && make(items[j]).Ok? :: key(make(items[j]).value)
  }

  /**
   * Registering succeeds exactly when every item is made; the keys are then
   * those already there and those of the items, each held once.
   */
  lemma {:induction false} RegisterKeys<I, V>(d: Pairs<V>, items: seq<I>, make: I -> Result<V>, key: V -> string)
    requires UniqueKeys(d)
    ensures Register(d, items, make, key).Ok? <==> forall j :: 0 <= j < |items| ==> make(items[j]).Ok?
    ensures Register(d, items, make, key).Ok? ==>
              UniqueKeys(Register(d, items, make, key).value) &&
              (set k | k in Keys(Register(d, items, make, key).value)) ==
                (set k | k in Keys(d)) + MadeKeys(items, make, key)
    decreases |items|
  {
    if items != [] {
      assert forall i :: 1 <= i < |items| ==> items[1..][i - 1] == items[i];
      if make(items[0]).Ok? {
        var v := make(items[0]).value;
        PutUnique(d, key(v), v);
        PutKeys(d, key(v), v);
        RegisterKeys(Put(d, key(v), v), items[1..], make, key);
        if Register(d, items, make, key).Ok? {
          assert MadeKeys(items, make, key) == {key(v)} + MadeKeys(items[1..], make, key) by {
            forall n | n in MadeKeys(items, make, key) ensures n in {key(v)} + MadeKeys(items[1..], make, key) {
              var i :| 0 <= i < |items| && make(items[i]).Ok? && key(make(items[i]).value) == n;
              if i > 0 {
                assert items[1..][i - 1] == items[i];
              }
            }
          }
        }
      }
    }
  }

  /** A key no item carries keeps what it was bound to. */
  lemma {:induction false} RegisterKeeps<I, V>(d: Pairs<V>, items: seq<I>, make: I -> Result<V>, key: V -> string, k: string)
    requires forall j :: 0 <= j < |items| ==> make(items[j]).Ok? && key(make(items[j]).value) != k
    ensures Register(d, items, make, key).Ok?
    ensures Get(Register(d, items, make, key).value, k) == Get(d, k)
    decreases |items|
  {
    if items != [] {
      var v := make(items[0]).value;
      PutOther(d, key(v), v, k);
      assert forall i :: 1 <= i < |items| ==> items[1..][i - 1] == items[i];
      RegisterKeeps(Put(d, key(v), v), items[1..], make, key, k);
    }
  }

  /** Last write wins: a key is bound to the value of the last item carrying it. */
  lemma {:induction false} RegisterLastWins<I, V>(d: Pairs<V>, items: seq<I>, make: I -> Result<V>, key: V -> string, j: int)
    requires (forall i :: 0 <= i < |items| ==> make(items[i]).Ok?) && 0 <= j < |items|
    requires forall l :: j < l < |items| ==> key(make(items[l]).value) != key(make(items[j]).value)
    ensures Register(d, items, make, key).Ok?
    ensures Get(Register(d, items, make, key).value, key(make(items[j]).value)) == Some(make(items[j]).value)
    decreases |items|
  {
    var v := make(items[0]).value;
    var next := Put(d, key(v), v);
    assert forall i :: 1 <= i < |items| ==> items[1..][i - 1] == items[i];
    if j == 0 {
      PutGet(d, key(v), v);
      RegisterKeeps(next, items[1..], make, key, key(v));
    } else {
      RegisterLastWins(next, items[1..], make, key, j - 1);
    }
  }

  /** A dictionary with unique keys has as many entries as distinct keys. */
  lemma {:induction false} KeyCount<V>(d: Pairs<V>)
    requires UniqueKeys(d)
    ensures |set k | k in Keys(d)| == |d|
    decreases |d|
  {
    if d != [] {
      UniqueTail(d);
      KeyCount(d[1..]);
      assert Keys(d) == [d[0].0] + Keys(d[1..]);
      assert (set k | k in Keys(d)) == {d[0].0} + (set k | k in Keys(d[1..]));
    }
  }
}

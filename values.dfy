/**
 * The generic nested value that LookML is parsed into and that a property
 * collection stores: a string, a list or an insertion-ordered dictionary.
 * `Other` stands for any other Python object (a number, `None`, ...), which
 * the property constructor rejects.
 */
module Values {
  import opened ODict

  datatype Value =
    | Str(s: string)
    | List(items: seq<Value>)
    | Dict(entries: Pairs<Value>)
    | Other

  /** The largest element, 0 for none. */
  function MaxOf(xs: seq<nat>): (m: nat)
    ensures forall i :: 0 <= i < |xs| ==> xs[i] <= m
    ensures xs != [] ==> m in xs
  {
    if xs == [] then 0
    else
      var t := MaxOf(xs[1..]);
      assert forall i :: 1 <= i < |xs| ==> xs[i] == xs[1..][i - 1];
      if xs[0] >= t then xs[0] else t
  }

  /** Nesting depth; every child is strictly lower than its parent. */
  function Height(v: Value): nat
  {
    match v
    case Str(_) => 0
    case Other => 0
    case List(items) => 1 + MaxOf(seq(|items|, i requires 0 <= i < |items| => Height(items[i])))
    case Dict(entries) => 1 + MaxOf(seq(|entries|, i requires 0 <= i < |entries| => Height(entries[i].1)))
  }

  lemma HeightItem(items: seq<Value>, x: Value)
    requires x in items
    ensures Height(x) < Height(List(items))
  {
    var i :| 0 <= i < |items| && items[i] == x;
    var hs := seq(|items|, i requires 0 <= i < |items| => Height(items[i]));
    assert hs[i] == Height(x);
  }

  lemma HeightEntry(entries: Pairs<Value>, p: (string, Value))
    requires p in entries
    ensures Height(p.1) < Height(Dict(entries))
  {
    var i :| 0 <= i < |entries| && entries[i] == p;
    var hs := seq(|entries|, i requires 0 <= i < |entries| => Height(entries[i].1));
    assert hs[i] == Height(p.1);
  }

  /** A dictionary made of some of the entries of another is no higher. */
  lemma HeightSubDict(sub: Pairs<Value>, entries: Pairs<Value>)
    requires forall p :: p in sub ==> p in entries
    ensures Height(Dict(sub)) <= Height(Dict(entries))
  {
    var hs := seq(|sub|, i requires 0 <= i < |sub| => Height(sub[i].1));
    if sub != [] {
      var m := MaxOf(hs);
      var i :| 0 <= i < |hs| && hs[i] == m;
      HeightEntry(entries, sub[i]);
    }
  }
}

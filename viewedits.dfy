/**
 * What a view does with its fields as a whole (`View` in lookml/lookml.py):
 * the partitions by kind, the two orderings, the derived measures, hiding
 * every non-measure, renaming a field along with the references to it, and
 * binding a parsed view. Each is a function on a `Table` saying what the
 * operation leaves behind; the `View` class performs the same steps.
 */
module ViewEdits {
  import opened Results
  import opened ODict
  import opened Values
  import opened Config
  import opened Text
  import opened Order
  import opened Props
  import opened Base
  import opened Fields
  import opened Views

  // ------------------------------------------------------------ partitions

  /** `dims()`, `dimensionGroups()`, `measures()`, `filters()`, `parameters()`: one kind, in insertion order. */
  function OfKind(fs: seq<Field>, k: Kind): (r: seq<Field>)
    ensures |r| <= |fs|
    ensures forall f :: f in r <==> f in fs && f.kind == k
  {
    if fs == [] then []
    else (if fs[0].kind == k then [fs[0]] else []) + OfKind(fs[1..], k)
  }

  /** A field occurs in its own partition as often as in the view, and in no other. */
  lemma {:induction false} OfKindCount(fs: seq<Field>, k: Kind, f: Field)
    ensures multiset(OfKind(fs, k))[f] == if f.kind == k then multiset(fs)[f] else 0
  {
    if fs != [] {
      OfKindCount(fs[1..], k, f);
      assert fs == [fs[0]] + fs[1..];
    }
  }

  /** The five partitions together hold every field exactly once. */
  lemma PartitionsCover(fs: seq<Field>)
    ensures multiset(fs) == multiset(OfKind(fs, Dimension)) + multiset(OfKind(fs, DimensionGroup))
                            + multiset(OfKind(fs, Measure)) + multiset(OfKind(fs, Filter))
                            + multiset(OfKind(fs, Parameter))
  {
    var all := multiset(OfKind(fs, Dimension)) + multiset(OfKind(fs, DimensionGroup))
               + multiset(OfKind(fs, Measure)) + multiset(OfKind(fs, Filter))
               + multiset(OfKind(fs, Parameter));
    forall f ensures multiset(fs)[f] == all[f] {
      OfKindCount(fs, Dimension, f);
      OfKindCount(fs, DimensionGroup, f);
      OfKindCount(fs, Measure, f);
      OfKindCount(fs, Filter, f);
      OfKindCount(fs, Parameter, f);
    }
  }

  /** The number of fields of a view (`__len__`) is the sum of its partitions' sizes. */
  lemma PartitionSizes(fs: seq<Field>)
    ensures |fs| == |OfKind(fs, Dimension)| + |OfKind(fs, DimensionGroup)| + |OfKind(fs, Measure)|
                    + |OfKind(fs, Filter)| + |OfKind(fs, Parameter)|
  {
    PartitionsCover(fs);
    assert |multiset(fs)| == |fs|;
  }

  // -------------------------------------------------------------- ordering

  function Ident(f: Field): string { f.identifier }

  /** `sortMe`: sorted by name. */
  function SortMe(fs: seq<Field>): seq<Field>
  {
    SortBy(fs, Ident)
  }

  /** `sortMe` puts the fields in ascending order of name and loses or adds none. */
  lemma SortMeOrders(fs: seq<Field>)
    ensures multiset(SortMe(fs)) == multiset(fs)
    ensures forall i, j :: 0 <= i < j < |SortMe(fs)| ==> StrLe(SortMe(fs)[i].identifier, SortMe(fs)[j].identifier)
  {
    SortBySorted(fs, Ident);
  }

  /** The key of `getFieldsSorted`: `str(isinstance(field, Measure))` followed by the name. */
  function SortKey(f: Field): string
  {
    (if f.kind == Measure then "True" else "False") + f.identifier
  }

  /** `getFieldsSorted`. */
  function FieldsSorted(fs: Pairs<Field>): seq<Field>
  {
    SortBy(ODict.Values(fs), SortKey)
  }

  /** Comparing two sort keys: measures come last, and within a group names decide. */
  lemma SortKeyOrder(a: Field, b: Field)
    requires StrLe(SortKey(a), SortKey(b))
    ensures a.kind == Measure ==> b.kind == Measure
    ensures (a.kind == Measure) == (b.kind == Measure) ==> StrLe(a.identifier, b.identifier)
  {
    var p := if a.kind == Measure then "True" else "False";
    var q := if b.kind == Measure then "True" else "False";
    StrLtPrefix(p, a.identifier, b.identifier);
    assert SortKey(a) == p + a.identifier && SortKey(a)[0] == p[0];
    assert SortKey(b) == q + b.identifier && SortKey(b)[0] == q[0];
    if p == q && SortKey(a) == SortKey(b) {
      assert a.identifier == SortKey(a)[|p|..] && b.identifier == SortKey(b)[|p|..];
    }
  }

  /** Different names give different sort keys. */
  lemma SortKeyInjective(a: Field, b: Field)
    requires a.identifier != b.identifier
    ensures SortKey(a) != SortKey(b)
  {
    var p := if a.kind == Measure then "True" else "False";
    var q := if b.kind == Measure then "True" else "False";
    if p == q {
      assert a.identifier == SortKey(a)[|p|..] && b.identifier == SortKey(b)[|p|..];
    } else {
      assert SortKey(a)[0] != SortKey(b)[0];
    }
  }

  /**
   * `getFieldsSorted` returns every field once, every non-measure before every
   * measure, and each of the two groups in ascending order of name.
   */
  lemma FieldsSortedOrder(fs: Pairs<Field>)
    ensures multiset(FieldsSorted(fs)) == multiset(ODict.Values(fs))
    ensures forall i, j :: 0 <= i < j < |FieldsSorted(fs)| && FieldsSorted(fs)[i].kind == Measure ==>
              FieldsSorted(fs)[j].kind == Measure
    ensures forall i, j :: (0 <= i < j < |FieldsSorted(fs)| &&
                            (FieldsSorted(fs)[i].kind == Measure) == (FieldsSorted(fs)[j].kind == Measure)) ==>
              StrLe(FieldsSorted(fs)[i].identifier, FieldsSorted(fs)[j].identifier)
  {
    var r := FieldsSorted(fs);
    SortBySorted(ODict.Values(fs), SortKey);
    forall i, j | 0 <= i < j < |r|
      ensures r[i].kind == Measure ==> r[j].kind == Measure
      ensures (r[i].kind == Measure) == (r[j].kind == Measure) ==> StrLe(r[i].identifier, r[j].identifier)
    {
      SortKeyOrder(r[i], r[j]);
    }
  }

  /** The names of a well-keyed table are its keys, so no two fields share a sort key. */
  lemma ValuesDistinct(fs: Pairs<Field>)
    requires WellKeyed(fs)
    ensures DistinctKeys(ODict.Values(fs), SortKey)
  {
    var vs := ODict.Values(fs);
    forall i, j | 0 <= i < j < |vs| ensures SortKey(vs[i]) != SortKey(vs[j]) {
      SortKeyInjective(vs[i], vs[j]);
    }
  }

  /**
   * The sorted fields depend only on which fields the view holds, never on the
   * order they were added in.
   */
  lemma FieldsSortedDeterministic(fs: Pairs<Field>, gs: Pairs<Field>)
    requires WellKeyed(fs)
    requires multiset(ODict.Values(fs)) == multiset(ODict.Values(gs))
    ensures FieldsSorted(fs) == FieldsSorted(gs)
  {
    ValuesDistinct(fs);
    SortByDeterministic(ODict.Values(fs), ODict.Values(gs), SortKey);
  }

  // ------------------------------------------------------- derived fields

  /** `Kind(name)`: a field built from its name alone. */
  function Named(kind: Kind, name: string): (r: Field)
    requires kind != DimensionGroup
    ensures NewField(kind, Str(name)) == Ok(r)
  {
    Field(kind, name, "", [], "")
  }

  /** `setType(t)` on a field: overwrite its `type`. */
  function Typed(f: Field, t: string): (r: Field)
    requires ValidField(f)
    ensures ValidField(r)
  {
    SetField(f, "type", Str(t))
  }

  /** Adding a field that is not a marked dimension, and whose `primary_key` reads, stores it and changes nothing else. */
  lemma AddUnmarked(t: Table, f: Field)
    requires WellKeyed(t.fields) && ValidField(f) && !IsPrimaryKey(f) && !PkUnreadable(f)
    ensures AddFieldTo(t, f) == Run(Table(Put(t.fields, f.identifier, f), t.pk), Ok(()))
  {
  }

  /** The measure `addCount` builds: `count`, of type `count`. */
  function CountMeasure(): (r: Field)
    ensures ValidField(r)
  {
    Typed(Named(Measure, "count"), "count")
  }

  /** `addCount`. */
  function AddCount(t: Table): (r: Run<()>)
    requires WellKeyed(t.fields)
  {
    AddFieldTo(t, CountMeasure())
  }

  /**
   * `addCount` never raises; afterwards `count` is a measure of type `count`,
   * the key and every other field are as they were, and a second call
   * changes nothing.
   */
  lemma AddCountEffect(t: Table)
    requires WellKeyed(t.fields)
    ensures AddCount(t).outcome.Ok? && AddCount(t).after.pk == t.pk
    ensures Get(AddCount(t).after.fields, "count").Some?
    ensures Get(AddCount(t).after.fields, "count").value.kind == Measure
    ensures Get(Get(AddCount(t).after.fields, "count").value.props, "type") == Some(Str("count"))
    ensures forall k :: k != "count" ==> Get(AddCount(t).after.fields, k) == Get(t.fields, k)
    ensures AddCount(AddCount(t).after) == Run(AddCount(t).after, Ok(()))
  {
    var m := CountMeasure();
    AddUnmarked(t, m);
    PutGet(t.fields, "count", m);
    PutOthers(t.fields, "count", m);
    PutWellKeyed(t.fields, "count", m);
    AddUnmarked(AddCount(t).after, m);
    PutTwice(t.fields, "count", m);
  }

  /** The measure `addSum` builds for a field: `total_<name>`, of type `sum`. */
  function SumMeasure(f: Field): (r: Field)
    ensures ValidField(r)
  {
    Typed(Named(Measure, "total_" + f.identifier), "sum")
  }

  /** `addSum(name)`: look the field up, then add its total. */
  function AddSum(t: Table, name: string): (r: Run<()>)
    requires WellKeyed(t.fields)
  {
    match Lookup(t.fields, name)
    case Err(e) => Run(t, Err(e))
    case Ok(f) => AddFieldTo(t, SumMeasure(f))
  }

  /**
   * `addSum(name)` raises `KeyError` for a missing field and changes nothing;
   * otherwise `total_<name>` is a measure of type `sum`, and the key and every
   * other field are as they were.
   */
  lemma AddSumEffect(t: Table, name: string)
    requires WellKeyed(t.fields)
    ensures AddSum(t, name).outcome.Err? <==> name !in Keys(t.fields)
    ensures AddSum(t, name).outcome.Err? ==> AddSum(t, name) == Run(t, Err(KeyError))
    ensures AddSum(t, name).outcome.Ok? ==> AddSum(t, name).after.pk == t.pk
    ensures AddSum(t, name).outcome.Ok? ==> Get(AddSum(t, name).after.fields, "total_" + name).Some?
    ensures AddSum(t, name).outcome.Ok? ==> Get(AddSum(t, name).after.fields, "total_" + name).value.kind == Measure
    ensures AddSum(t, name).outcome.Ok? ==>
              Get(Get(AddSum(t, name).after.fields, "total_" + name).value.props, "type") == Some(Str("sum"))
    ensures forall k :: k != "total_" + name ==> Get(AddSum(t, name).after.fields, k) == Get(t.fields, k)
  {
    if name in Keys(t.fields) {
      var f := Lookup(t.fields, name).value;
      Found(t.fields, name);
      var m := SumMeasure(f);
      AddUnmarked(t, m);
      PutGet(t.fields, m.identifier, m);
      PutOthers(t.fields, m.identifier, m);
    }
  }

  /** The measure `addCountDistinct` builds: `count_distinct_<name>` over `${name}`. */
  function CountDistinctMeasure(f: Field): (r: Field)
    ensures ValidField(r)
  {
    Typed(SetField(Named(Measure, "count_distinct_" + f.identifier), "sql", Str(Refs(f))), "count_distinct")
  }

  /** `addCountDistinct(name)`. */
  function AddCountDistinct(t: Table, name: string): (r: Run<()>)
    requires WellKeyed(t.fields)
  {
    match Lookup(t.fields, name)
    case Err(e) => Run(t, Err(e))
    case Ok(f) => AddFieldTo(t, CountDistinctMeasure(f))
  }

  /**
   * `addCountDistinct(name)` raises `KeyError` for a missing field; otherwise
   * `count_distinct_<name>` is a measure of type `count_distinct` whose `sql`
   * is the short reference `${name}`, and nothing else changes.
   */
  lemma AddCountDistinctEffect(t: Table, name: string)
    requires WellKeyed(t.fields)
    ensures AddCountDistinct(t, name).outcome.Err? <==> name !in Keys(t.fields)
    ensures AddCountDistinct(t, name).outcome.Err? ==> AddCountDistinct(t, name) == Run(t, Err(KeyError))
    ensures AddCountDistinct(t, name).outcome.Ok? ==> AddCountDistinct(t, name).after.pk == t.pk
    ensures AddCountDistinct(t, name).outcome.Ok? ==>
              Get(AddCountDistinct(t, name).after.fields, "count_distinct_" + name).Some?
    ensures AddCountDistinct(t, name).outcome.Ok? ==>
              Get(AddCountDistinct(t, name).after.fields, "count_distinct_" + name).value.props ==
              [("sql", Str("${" + name + "}")), ("type", Str("count_distinct"))]
    ensures forall k :: k != "count_distinct_" + name ==>
              Get(AddCountDistinct(t, name).after.fields, k) == Get(t.fields, k)
  {
    if name in Keys(t.fields) {
      var f := Lookup(t.fields, name).value;
      Found(t.fields, name);
      var m := CountDistinctMeasure(f);
      var withSql := SetField(Named(Measure, "count_distinct_" + name), "sql", Str(Refs(f)));
      assert withSql.props == [("sql", Str("${" + name + "}"))];
      assert Keys(withSql.props) == ["sql"];
      PutAbsent(withSql.props, "type", Str("count_distinct"));
      assert m.props == [("sql", Str("${" + name + "}")), ("type", Str("count_distinct"))];
      AddUnmarked(t, m);
      PutGet(t.fields, m.identifier, m);
      PutOthers(t.fields, m.identifier, m);
    }
  }

  /** The dimension `addDimension` builds: named after the column, with the given type. */
  function TypedDimension(col: string, ty: string): (r: Field)
    ensures ValidField(r)
  {
    Typed(Named(Dimension, col), ty)
  }

  /** `addDimension(col, type)`. */
  function AddDimension(t: Table, col: string, ty: string): (r: Run<()>)
    requires WellKeyed(t.fields)
  {
    AddFieldTo(t, TypedDimension(col, ty))
  }

  /**
   * `addDimension(col, type)` never raises: `col` now names a dimension whose
   * only property is that type, and the key and the other fields are kept.
   */
  lemma AddDimensionEffect(t: Table, col: string, ty: string)
    requires WellKeyed(t.fields)
    ensures AddDimension(t, col, ty).outcome.Ok? && AddDimension(t, col, ty).after.pk == t.pk
    ensures Get(AddDimension(t, col, ty).after.fields, col) == Some(Field(Dimension, col, "", [("type", Str(ty))], ""))
    ensures forall k :: k != col ==> Get(AddDimension(t, col, ty).after.fields, k) == Get(t.fields, k)
    ensures PkConsistent(t) ==> PkConsistent(AddDimension(t, col, ty).after)
  {
    var d := TypedDimension(col, ty);
    assert d.props == [("type", Str(ty))];
    AddUnmarked(t, d);
    PutGet(t.fields, col, d);
    PutOthers(t.fields, col, d);
    MarkedAfterPut(t.fields, col, d);
  }

  // ------------------------------------------------- sumAllNumDimensions

  lemma TypeShape()
    ensures ShapeOf("type") == DefaultShape
  {
  }

  /**
   * The test of `getFieldsByType(t)`: the field's `type` property (an empty
   * list when it has none), as rendered, reads `type: t`. Rendering can raise.
   */
  function HasType(f: Field, t: string): (r: Result<bool>)
  {
    var v := match Get(f.props, "type") case None => List([]) case Some(x) => x;
    var p :- MakeProperty("type", v);
    var shown :- RenderProperty(p);
    Ok(shown == "type: " + t)
  }

  /** A field whose type is the string `s` has type `t` exactly when `s` is `t`. */
  lemma HasTypeOfString(f: Field, s: string, t: string)
    requires Get(f.props, "type") == Some(Str(s))
    ensures HasType(f, t) == Ok(s == t)
  {
    TypeShape();
    RenderPlain("type", s);
    var a := "type: " + s;
    var b := "type: " + t;
    if a == b {
      assert s == a[6..] && t == b[6..];
    }
  }

  /** The dictionary `sumAllNumDimensions` builds a total from. */
  function TotalSpec(f: Field): Value
  {
    Dict([("name", Str("total_" + f.identifier)), ("type", Str("sum")), ("sql", Str(Refs(f)))])
  }

  lemma TotalRest(f: Field)
    ensures Pop(TotalSpec(f).entries, "name") == [("type", Str("sum")), ("sql", Str(Refs(f)))]
  {
    var rest := [("type", Str("sum")), ("sql", Str(Refs(f)))];
    assert TotalSpec(f).entries[1..] == rest;
    assert Keys(rest) == ["type", "sql"];
    PopAbsent(rest, "name");
  }

  lemma TotalProps(f: Field)
    ensures BindProps([], [("type", Str("sum")), ("sql", Str(Refs(f)))]) ==
              [("type", Str("sum")), ("sql", Str(Refs(f)))]
  {
    var ty := ("type", Str("sum"));
    var sql := ("sql", Str(Refs(f)));
    var e1 := SetProp([], "type", Str("sum"));
    assert e1 == [ty];
    assert Keys(e1) == ["type"];
    PutAbsent(e1, "sql", Str(Refs(f)));
    assert [ty, sql][1..] == [sql];
    assert BindProps(e1, [sql]) == [ty, sql];
  }

  /** Binding that dictionary names the measure and keeps `type` and `sql` in that order. */
  lemma TotalBinds(f: Field)
    ensures BindEntity(TotalSpec(f).entries) ==
              Ok(("total_" + f.identifier, [("type", Str("sum")), ("sql", Str(Refs(f)))]))
  {
    TotalRest(f);
    TotalProps(f);
    assert Get(TotalSpec(f).entries, "name") == Some(Str("total_" + f.identifier));
  }

  /** The measure built from that dictionary: `total_<name>`, of type `sum`, over `${name}`. */
  function TotalMeasure(f: Field): (r: Field)
    ensures NewField(Measure, TotalSpec(f)) == Ok(r)
    ensures r.kind == Measure && r.identifier == "total_" + f.identifier
    ensures Get(r.props, "type") == Some(Str("sum")) && Get(r.props, "sql") == Some(Str(Refs(f)))
  {
    TotalBinds(f);
    Field(Measure, "total_" + f.identifier, "", [("type", Str("sum")), ("sql", Str(Refs(f)))], "")
  }

  /**
   * The loop of `sumAllNumDimensions` over a snapshot of the fields: each
   * number-typed dimension whose total is not yet a field gets one. A type
   * that cannot be rendered raises and stops the loop.
   */
  function SumFrom(t: Table, todo: seq<Field>): (r: Run<()>)
    requires WellKeyed(t.fields)
    ensures WellKeyed(r.after.fields)
    decreases |todo|
  {
    if todo == [] then Run(t, Ok(()))
    else
      var f := todo[0];
      match HasType(f, "number")
      case Err(e) => Run(t, Err(e))
      case Ok(isNumber) =>
        if isNumber && "total_" + f.identifier !in Keys(t.fields) && f.kind == Dimension then
          SumFrom(AddFieldTo(t, TotalMeasure(f)).after, todo[1..])
        else SumFrom(t, todo[1..])
  }

  /** `sumAllNumDimensions`. */
  function SumAll(t: Table): (r: Run<()>)
    requires WellKeyed(t.fields)
  {
    SumFrom(t, ODict.Values(t.fields))
  }

  /** A number-typed dimension of the snapshot whose total the loop adds. */
  predicate NeedsTotal(f: Field)
  {
    f.kind == Dimension && HasType(f, "number") == Ok(true)
  }

  /** `fs` holds under `k` the total the loop builds for `f`, a number-typed dimension. */
  predicate TotalOf(fs: Pairs<Field>, k: string, f: Field)
  {
    NeedsTotal(f) && k == "total_" + f.identifier && Get(fs, k) == Some(TotalMeasure(f))
  }

  /** The loop keeps the key and every field it finds, and only adds. */
  lemma {:induction false} SumFromKeeps(t: Table, todo: seq<Field>)
    requires WellKeyed(t.fields)
    ensures SumFrom(t, todo).after.pk == t.pk
    ensures forall k :: k in Keys(t.fields) ==> Get(SumFrom(t, todo).after.fields, k) == Get(t.fields, k)
    ensures forall k :: k in Keys(t.fields) ==> k in Keys(SumFrom(t, todo).after.fields)
    decreases |todo|
  {
    if todo != [] {
      var f := todo[0];
      var m := TotalMeasure(f);
      if HasType(f, "number") == Ok(true) && m.identifier !in Keys(t.fields) && f.kind == Dimension {
        AddUnmarked(t, m);
        var t1 := AddFieldTo(t, m).after;
        SumFromKeeps(t1, todo[1..]);
        PutOthers(t.fields, m.identifier, m);
        PutKeys(t.fields, m.identifier, m);
      } else if HasType(f, "number").Ok? {
        SumFromKeeps(t, todo[1..]);
      }
      forall k | k in Keys(t.fields) ensures k in Keys(SumFrom(t, todo).after.fields) {
        GetMisses(t.fields, k);
        GetMisses(SumFrom(t, todo).after.fields, k);
      }
    }
  }

  /** When the loop finishes, every number-typed dimension it saw has its total. */
  lemma {:induction false} SumFromTotals(t: Table, todo: seq<Field>)
    requires WellKeyed(t.fields)
    ensures SumFrom(t, todo).outcome.Ok? ==> forall f :: f in todo ==> HasType(f, "number").Ok?
    ensures SumFrom(t, todo).outcome.Ok? ==>
              forall f :: f in todo && NeedsTotal(f) ==> "total_" + f.identifier in Keys(SumFrom(t, todo).after.fields)
    decreases |todo|
  {
    if todo != [] {
      var f := todo[0];
      var m := TotalMeasure(f);
      if HasType(f, "number") == Ok(true) && m.identifier !in Keys(t.fields) && f.kind == Dimension {
        var t1 := AddFieldTo(t, m).after;
        AddUnmarked(t, m);
        PutKeys(t.fields, m.identifier, m);
        assert m.identifier in Keys(t1.fields);
        SumFromTotals(t1, todo[1..]);
        SumFromKeeps(t1, todo[1..]);
      } else if HasType(f, "number").Ok? {
        SumFromTotals(t, todo[1..]);
        SumFromKeeps(t, todo[1..]);
      }
    }
  }

  /** Every field the loop adds is the total of a number-typed dimension it saw, stored under that total's name. */
  lemma {:induction false} SumFromAdds(t: Table, todo: seq<Field>)
    requires WellKeyed(t.fields)
    ensures forall k :: k in Keys(SumFrom(t, todo).after.fields) && k !in Keys(t.fields) ==>
              exists f :: f in todo && TotalOf(SumFrom(t, todo).after.fields, k, f)
    decreases |todo|, 1
  {
    var r := SumFrom(t, todo);
    if todo != [] {
      var f := todo[0];
      if HasType(f, "number") == Ok(true) && TotalMeasure(f).identifier !in Keys(t.fields) && f.kind == Dimension {
        SumFromAddsStep(t, todo);
      } else if HasType(f, "number").Ok? {
        SumFromAdds(t, todo[1..]);
        forall k | k in Keys(r.after.fields) && k !in Keys(t.fields)
          ensures exists g :: g in todo && TotalOf(r.after.fields, k, g)
        {
          var g :| g in todo[1..] && TotalOf(r.after.fields, k, g);
          assert g in todo;
        }
      }
    }
  }

  /** One step of the loop that adds a total: the rest of the loop works on the table with it. */
  lemma SumFromAddsTotal(t: Table, todo: seq<Field>)
    requires WellKeyed(t.fields) && todo != []
    requires HasType(todo[0], "number") == Ok(true) && TotalMeasure(todo[0]).identifier !in Keys(t.fields)
    requires todo[0].kind == Dimension
    ensures SumFrom(t, todo) == SumFrom(AddFieldTo(t, TotalMeasure(todo[0])).after, todo[1..])
  {
  }

  /** `SumFromAdds` when the first field gets its total. */
  lemma {:induction false} SumFromAddsStep(t: Table, todo: seq<Field>)
    requires WellKeyed(t.fields) && todo != []
    requires HasType(todo[0], "number") == Ok(true) && TotalMeasure(todo[0]).identifier !in Keys(t.fields)
    requires todo[0].kind == Dimension
    ensures forall k :: k in Keys(SumFrom(t, todo).after.fields) && k !in Keys(t.fields) ==>
              exists f :: f in todo && TotalOf(SumFrom(t, todo).after.fields, k, f)
    decreases |todo|, 0
  {
    var m := TotalMeasure(todo[0]);
    SumFromAddsTotal(t, todo);
    AddUnmarked(t, m);
    var t1 := Table(Put(t.fields, m.identifier, m), t.pk);
    PutKeys(t.fields, m.identifier, m);
    PutGet(t.fields, m.identifier, m);
    SumFromAdds(t1, todo[1..]);
    SumFromKeeps(t1, todo[1..]);
    TotalsLift(t.fields, t1.fields, SumFrom(t1, todo[1..]).after.fields, todo);
  }

  /**
   * The totals found after the first step are totals of the whole loop: the
   * first step's own total, or one the later steps made.
   */
  lemma TotalsLift(fs: Pairs<Field>, fs1: Pairs<Field>, rs: Pairs<Field>, todo: seq<Field>)
    requires todo != [] && NeedsTotal(todo[0])
    requires forall k :: k in Keys(fs1) && k !in Keys(fs) ==> k == TotalMeasure(todo[0]).identifier
    requires TotalMeasure(todo[0]).identifier in Keys(fs1)
    requires Get(rs, TotalMeasure(todo[0]).identifier) == Some(TotalMeasure(todo[0]))
    requires forall k :: k in Keys(rs) && k !in Keys(fs1) ==> exists g :: g in todo[1..] && TotalOf(rs, k, g)
    ensures forall k :: k in Keys(rs) && k !in Keys(fs) ==> exists g :: g in todo && TotalOf(rs, k, g)
  {
    var f := todo[0];
    forall k | k in Keys(rs) && k !in Keys(fs)
      ensures exists g :: g in todo && TotalOf(rs, k, g)
    {
      if k in Keys(fs1) {
        assert f in todo && TotalOf(rs, k, f);
      } else {
        var g :| g in todo[1..] && TotalOf(rs, k, g);
        assert g in todo;
      }
    }
  }

  /** The loop changes nothing when every type renders and every total it would add is already there. */
  lemma {:induction false} SumFromNothingToDo(t: Table, todo: seq<Field>)
    requires WellKeyed(t.fields)
    requires forall f :: f in todo ==> HasType(f, "number").Ok?
    requires forall f :: f in todo && NeedsTotal(f) ==> "total_" + f.identifier in Keys(t.fields)
    ensures SumFrom(t, todo) == Run(t, Ok(()))
    decreases |todo|
  {
    if todo != [] {
      assert todo[0] in todo;
      SumFromNothingToDo(t, todo[1..]);
    }
  }

  /**
   * `sumAllNumDimensions` keeps the key and every field; when it returns,
   * every number-typed dimension has its total, every field it added is such
   * a total, and running it again changes nothing.
   */
  lemma SumAllEffect(t: Table)
    requires WellKeyed(t.fields)
    ensures SumAll(t).after.pk == t.pk
    ensures forall k :: k in Keys(t.fields) ==> Get(SumAll(t).after.fields, k) == Get(t.fields, k)
    ensures SumAll(t).outcome.Ok? ==>
              forall f :: f in ODict.Values(t.fields) && NeedsTotal(f) ==> "total_" + f.identifier in Keys(SumAll(t).after.fields)
    ensures forall k :: k in Keys(SumAll(t).after.fields) && k !in Keys(t.fields) ==>
              exists f :: f in ODict.Values(t.fields) && NeedsTotal(f) && k == "total_" + f.identifier &&
                          Get(SumAll(t).after.fields, k) == Some(TotalMeasure(f))
  {
    SumFromKeeps(t, ODict.Values(t.fields));
    SumFromTotals(t, ODict.Values(t.fields));
    SumFromAdds(t, ODict.Values(t.fields));
  }

  /** A field that was there before a completed run is settled: its type renders, and its total is there if it needs one. */
  lemma SettledOld(t: Table, k: string)
    requires WellKeyed(t.fields) && SumAll(t).outcome.Ok? && k in Keys(t.fields)
    ensures Get(SumAll(t).after.fields, k).Some?
    ensures HasType(Get(SumAll(t).after.fields, k).value, "number").Ok?
    ensures NeedsTotal(Get(SumAll(t).after.fields, k).value) ==>
              "total_" + Get(SumAll(t).after.fields, k).value.identifier in Keys(SumAll(t).after.fields)
  {
    GetMisses(t.fields, k);
    GetValue(t.fields, k);
    SumFromKeeps(t, ODict.Values(t.fields));
    SumFromTotals(t, ODict.Values(t.fields));
  }

  /** A field a run added is a total, whose type renders and which needs no total of its own. */
  lemma SettledNew(t: Table, k: string)
    requires WellKeyed(t.fields) && k in Keys(SumAll(t).after.fields) && k !in Keys(t.fields)
    ensures Get(SumAll(t).after.fields, k).Some?
    ensures HasType(Get(SumAll(t).after.fields, k).value, "number") == Ok(false)
    ensures !NeedsTotal(Get(SumAll(t).after.fields, k).value)
  {
    SumFromAdds(t, ODict.Values(t.fields));
    var g :| g in ODict.Values(t.fields) && NeedsTotal(g) && k == "total_" + g.identifier &&
             Get(SumAll(t).after.fields, k) == Some(TotalMeasure(g));
    HasTypeOfString(TotalMeasure(g), "sum", "number");
  }

  /** Each field after a completed run is settled. */
  lemma SumAllSettled(t: Table, k: string)
    requires WellKeyed(t.fields) && SumAll(t).outcome.Ok? && k in Keys(SumAll(t).after.fields)
    ensures Get(SumAll(t).after.fields, k).Some?
    ensures HasType(Get(SumAll(t).after.fields, k).value, "number").Ok?
    ensures NeedsTotal(Get(SumAll(t).after.fields, k).value) ==>
              "total_" + Get(SumAll(t).after.fields, k).value.identifier in Keys(SumAll(t).after.fields)
  {
    if k in Keys(t.fields) {
      SettledOld(t, k);
    } else {
      SettledNew(t, k);
    }
  }

  /** A field is settled in a table when its type renders and its total is there if it needs one. */
  predicate SettledIn(fs: Pairs<Field>, f: Field)
  {
    HasType(f, "number").Ok? && (NeedsTotal(f) ==> "total_" + f.identifier in Keys(fs))
  }

  lemma SettledByKey(fs: Pairs<Field>, f: Field)
    requires UniqueKeys(fs) && f in ODict.Values(fs)
    requires forall k :: k in Keys(fs) ==> Get(fs, k).Some? && SettledIn(fs, Get(fs, k).value)
    ensures SettledIn(fs, f)
  {
    var vs := ODict.Values(fs);
    var i :| 0 <= i < |vs| && vs[i] == f;
    GetAt(fs, i);
    assert Keys(fs)[i] == fs[i].0;
  }

  /** Running `sumAllNumDimensions` a second time changes nothing. */
  lemma SumAllIdempotent(t: Table)
    requires WellKeyed(t.fields) && SumAll(t).outcome.Ok?
    ensures SumAll(SumAll(t).after) == Run(SumAll(t).after, Ok(()))
  {
    var a := SumAll(t).after;
    forall k | k in Keys(a.fields)
      ensures Get(a.fields, k).Some? && SettledIn(a.fields, Get(a.fields, k).value)
    {
      SumAllSettled(t, k);
    }
    var vs := ODict.Values(a.fields);
    forall f | f in vs
      ensures HasType(f, "number").Ok?
      ensures NeedsTotal(f) ==> "total_" + f.identifier in Keys(a.fields)
    {
      SettledByKey(a.fields, f);
    }
    SumFromNothingToDo(a, vs);
  }

  // ------------------------------------------------------------ __invert__

  /** One pass of `~view`: `hide` every field of kind `k`, in place, keeping order. */
  function HideKind(fs: Pairs<Field>, k: Kind): (r: Pairs<Field>)
    requires forall i :: 0 <= i < |fs| ==> ValidField(fs[i].1)
  {
    seq(|fs|, i requires 0 <= i < |fs| => if fs[i].1.kind == k then (fs[i].0, Hide(fs[i].1)) else fs[i])
  }

  /** A pass keeps every name, kind and identifier, so the table stays well keyed. */
  lemma HideKindKeeps(fs: Pairs<Field>, k: Kind)
    requires WellKeyed(fs)
    ensures Keys(HideKind(fs, k)) == Keys(fs)
    ensures WellKeyed(HideKind(fs, k))
  {
    var r := HideKind(fs, k);
    assert forall i :: 0 <= i < |fs| ==> Keys(r)[i] == Keys(fs)[i];
  }

  /** A pass hides exactly the fields of its kind and leaves every other field as it was. */
  lemma HideKindGet(fs: Pairs<Field>, k: Kind, name: string)
    requires WellKeyed(fs)
    ensures Get(fs, name).None? ==> Get(HideKind(fs, k), name).None?
    ensures Get(fs, name).Some? && Get(fs, name).value.kind == k ==>
              Get(HideKind(fs, k), name) == Some(Hide(Get(fs, name).value))
    ensures Get(fs, name).Some? && Get(fs, name).value.kind != k ==>
              Get(HideKind(fs, k), name) == Get(fs, name)
  {
    var r := HideKind(fs, k);
    HideKindKeeps(fs, k);
    GetMisses(fs, name);
    GetMisses(r, name);
    if name in Keys(fs) {
      var i :| 0 <= i < |fs| && Keys(fs)[i] == name;
      GetAt(fs, i);
      GetAt(r, i);
    }
  }

  /** `~view`: hide the dimensions, then the dimension groups, the parameters and the filters. */
  function Invert(t: Table): (r: Table)
    requires WellKeyed(t.fields)
    ensures WellKeyed(r.fields) && Keys(r.fields) == Keys(t.fields) && r.pk == t.pk
  {
    HideKindKeeps(t.fields, Dimension);
    var f1 := HideKind(t.fields, Dimension);
    HideKindKeeps(f1, DimensionGroup);
    var f2 := HideKind(f1, DimensionGroup);
    HideKindKeeps(f2, Parameter);
    var f3 := HideKind(f2, Parameter);
    HideKindKeeps(f3, Filter);
    Table(HideKind(f3, Filter), t.pk)
  }

  /** What `~view` leaves under each name: measures as they were, every other field hidden. */
  function Inverted(f: Field): (r: Field)
    requires ValidField(f)
    ensures r.kind == f.kind && r.identifier == f.identifier && ValidField(r)
    ensures f.kind == Measure ==> r == f
    ensures f.kind != Measure ==> Get(r.props, "hidden") == Some(Str("yes"))
    ensures forall p :: p != "hidden" ==> Get(r.props, p) == Get(f.props, p)
    ensures IsPrimaryKey(r) <==> IsPrimaryKey(f)
  {
    if f.kind == Measure then f else Hide(f)
  }

  /** Each pass touches only its own kind, so the four passes hide every field but the measures. */
  lemma InvertGet(t: Table, name: string)
    requires WellKeyed(t.fields)
    ensures Get(t.fields, name).None? ==> Get(Invert(t).fields, name).None?
    ensures Get(t.fields, name).Some? ==>
              Get(Invert(t).fields, name) == Some(Inverted(Get(t.fields, name).value))
  {
    var f1 := HideKind(t.fields, Dimension);
    HideKindKeeps(t.fields, Dimension);
    var f2 := HideKind(f1, DimensionGroup);
    HideKindKeeps(f1, DimensionGroup);
    var f3 := HideKind(f2, Parameter);
    HideKindKeeps(f2, Parameter);
    HideKindGet(t.fields, Dimension, name);
    HideKindGet(f1, DimensionGroup, name);
    HideKindGet(f2, Parameter, name);
    HideKindGet(f3, Filter, name);
    if Get(t.fields, name).Some? {
      Found(t.fields, name);
    }
  }

  /** Hiding changes no mark, so `~view` keeps the primary key consistent. */
  lemma InvertKeepsConsistent(t: Table)
    requires WellKeyed(t.fields) && PkConsistent(t)
    ensures PkConsistent(Invert(t))
    ensures PkResolves(t) ==> PkResolves(Invert(t))
  {
    var a := Invert(t);
    forall k | IsMarked(a.fields, k) ensures IsMarked(t.fields, k) {
      InvertGet(t, k);
      if Get(t.fields, k).Some? {
        Found(t.fields, k);
      }
    }
  }

  /** Hiding a hidden field changes nothing. */
  lemma HideTwice(f: Field)
    requires ValidField(f)
    ensures Hide(Hide(f)) == Hide(f)
  {
    assert "hidden" !in NONUNIQUE_PROPERTIES;
    PutTwice(f.props, "hidden", Str("yes"));
  }

  /** Inverting twice is inverting once: `hidden: yes` is written again over itself. */
  lemma InvertIdempotent(t: Table)
    requires WellKeyed(t.fields)
    ensures Invert(Invert(t)) == Invert(t)
  {
    var a := Invert(t);
    var b := Invert(a);
    forall name ensures Get(b.fields, name) == Get(a.fields, name) {
      InvertGet(a, name);
      InvertGet(t, name);
      if Get(t.fields, name).Some? {
        var f := Get(t.fields, name).value;
        Found(t.fields, name);
        if f.kind != Measure {
          HideTwice(f);
        }
      }
    }
    SameLookups(a.fields, b.fields);
  }
}

/**
 * Building a view from a dictionary (`View.__init__` and `View._bind_lkml`)
 * and writing a view back out (`View.__str__`), over the field table of
 * module Views.
 */
module ViewBind {
  import opened Results
  import opened ODict
  import opened Values
  import opened Config
  import opened Text
  import opened Order
  import opened Props
  import opened Base
  import opened Fields
  import opened Views
  import opened ViewEdits

  // ------------------------------------------------------------ _bind_lkml

  /** The field sections of a view dictionary, in the order `_bind_lkml` visits them, with the kind each builds. */
  const SECTIONS: seq<(string, Kind)> :=
    [("measures", Measure), ("dimensions", Dimension), ("filters", Filter),
     ("dimension_groups", DimensionGroup), ("parameters", Parameter)]

  /** `for field in items: self + Kind(field)`: construct each field and add it; the first failure stops. */
  function AddItems(t: Table, kind: Kind, items: seq<Value>): (r: Result<Table>)
    requires WellKeyed(t.fields)
    ensures r.Ok? ==> WellKeyed(r.value.fields)
    decreases |items|
  {
    if items == [] then Ok(t)
    else
      var f :- NewField(kind, items[0]);
      var a := AddFieldTo(t, f);
      if a.outcome.Err? then Err(a.outcome.error) else AddItems(a.after, kind, items[1..])
  }

  /**
   * One section: when the dictionary has it, add the fields it lists and pop
   * it. Iterating a value that is not iterable raises.
   */
  function BindSection(t: Table, d: Pairs<Value>, key: string, kind: Kind): (r: Result<(Table, Pairs<Value>)>)
    requires WellKeyed(t.fields)
    ensures r.Ok? ==> WellKeyed(r.value.0.fields)
  {
    match Get(d, key)
    case None => Ok((t, d))
    case Some(v) =>
      match Occurrences(v)
      case None => Err(TypeError)
      case Some(items) =>
        var u :- AddItems(t, kind, items);
        Ok((u, Pop(d, key)))
  }

  /** The sections of `SECTIONS` from position `i` on, each working on what the previous one left. */
  function BindSections(t: Table, d: Pairs<Value>, i: nat): (r: Result<(Table, Pairs<Value>)>)
    requires WellKeyed(t.fields) && i <= |SECTIONS|
    ensures r.Ok? ==> WellKeyed(r.value.0.fields)
    decreases |SECTIONS| - i
  {
    if i == |SECTIONS| then Ok((t, d))
    else
      var p :- BindSection(t, d, SECTIONS[i].0, SECTIONS[i].1);
      BindSections(p.0, p.1, i + 1)
  }

  /** What a newly constructed view holds: its name, its own properties and its field table. */
  datatype ViewState = ViewState(identifier: string, props: Pairs<Value>, table: Table)

  /** The view `View('')` starts from. */
  function EmptyTable(): Table { Table([], "") }

  /**
   * `View(input)`: a string names the view; a dictionary has its field
   * sections bound first and then its name and remaining entries; anything
   * else leaves the view empty.
   */
  function NewView(input: Value): (r: Result<ViewState>)
    ensures input.Str? ==> r == Ok(ViewState(input.s, [], EmptyTable()))
    ensures r.Ok? ==> WellKeyed(r.value.table.fields) && Regular(r.value.props)
  {
    match input
    case Str(s) => Ok(ViewState(s, [], EmptyTable()))
    case Dict(d) =>
      var p :- BindSections(EmptyTable(), d, 0);
      var named :- BindEntity(p.1);
      Ok(ViewState(named.0, named.1, p.0))
    case _ => Ok(ViewState("", [], EmptyTable()))
  }

  // ------------------------------------------------------- binding lemmas

  /** A completed `AddItems` constructed every item, stored each under its name, and kept every name it found. */
  lemma {:induction false} AddItemsStores(t: Table, kind: Kind, items: seq<Value>)
    requires WellKeyed(t.fields)
    requires AddItems(t, kind, items).Ok?
    ensures forall j :: 0 <= j < |items| ==> NewField(kind, items[j]).Ok?
    ensures forall j :: 0 <= j < |items| ==>
              NewField(kind, items[j]).value.identifier in Keys(AddItems(t, kind, items).value.fields)
    ensures forall k :: k in Keys(t.fields) ==> k in Keys(AddItems(t, kind, items).value.fields)
    decreases |items|
  {
    if items != [] {
      var f := NewField(kind, items[0]).value;
      var a := AddFieldTo(t, f);
      assert a.outcome.Ok? && AddItems(t, kind, items) == AddItems(a.after, kind, items[1..]);
      PutKeys(t.fields, f.identifier, f);
      AddItemsStores(a.after, kind, items[1..]);
      assert forall j :: 1 <= j < |items| ==> items[1..][j - 1] == items[j];
    }
  }

  /** Every name a completed `AddItems` holds was there before or names one of the items. */
  lemma {:induction false} AddItemsOnly(t: Table, kind: Kind, items: seq<Value>, k: string)
    requires WellKeyed(t.fields)
    requires AddItems(t, kind, items).Ok?
    requires k in Keys(AddItems(t, kind, items).value.fields) && k !in Keys(t.fields)
    ensures exists j :: 0 <= j < |items| && NewField(kind, items[j]).Ok? && NewField(kind, items[j]).value.identifier == k
    decreases |items|
  {
    var f := NewField(kind, items[0]).value;
    var a := AddFieldTo(t, f);
    assert a.outcome.Ok? && AddItems(t, kind, items) == AddItems(a.after, kind, items[1..]);
    PutKeys(t.fields, f.identifier, f);
    if k == f.identifier {
      assert NewField(kind, items[0]).value.identifier == k;
    } else {
      assert k !in Keys(a.after.fields);
      AddItemsOnly(a.after, kind, items[1..], k);
      var j :| 0 <= j < |items[1..]| && NewField(kind, items[1..][j]).Ok? && NewField(kind, items[1..][j]).value.identifier == k;
      assert items[1..][j] == items[j + 1];
    }
  }

  /**
   * On a table whose key resolves, `addField` raises only for a dimension
   * whose `primary_key` cannot be read, and the key still resolves afterwards.
   */
  lemma AddFieldResolves(t: Table, f: Field)
    requires WellKeyed(t.fields) && ValidField(f) && PkResolves(t)
    ensures AddFieldTo(t, f).outcome.Ok? <==> !PkUnreadable(f)
    ensures PkResolves(AddFieldTo(t, f).after)
  {
    PutKeys(t.fields, f.identifier, f);
    AddFieldOutcome(t, f);
    AddFieldStores(t, f);
    var a := AddFieldTo(t, f);
    if IsPrimaryKey(f) {
      GetMisses(a.after.fields, f.identifier);
    } else {
      assert Keys(a.after.fields) == Keys(Put(t.fields, f.identifier, f));
    }
  }

  /** One step of `AddItems`: the first item is constructed and added, and the rest work on what that left. */
  lemma AddItemsStep(t: Table, kind: Kind, items: seq<Value>)
    requires WellKeyed(t.fields) && items != []
    ensures NewField(kind, items[0]).Err? ==> AddItems(t, kind, items).Err?
    ensures NewField(kind, items[0]).Ok? ==>
              var a := AddFieldTo(t, NewField(kind, items[0]).value);
              AddItems(t, kind, items) == if a.outcome.Err? then Err(a.outcome.error) else AddItems(a.after, kind, items[1..])
  {
  }

  /** An item `addField` accepts: it constructs, and as a dimension its `primary_key` can be read. */
  predicate Addable(kind: Kind, x: Value)
  {
    NewField(kind, x).Ok? && !PkUnreadable(NewField(kind, x).value)
  }

  /**
   * From a table whose key resolves, `AddItems` raises exactly when one of the
   * items is not addable, and leaves a key that still resolves.
   */
  lemma {:induction false} AddItemsResolves(t: Table, kind: Kind, items: seq<Value>)
    requires WellKeyed(t.fields) && PkResolves(t)
    ensures AddItems(t, kind, items).Ok? <==> forall j :: 0 <= j < |items| ==> Addable(kind, items[j])
    ensures AddItems(t, kind, items).Ok? ==> PkResolves(AddItems(t, kind, items).value)
    decreases |items|
  {
    if items != [] {
      match NewField(kind, items[0])
      case Err(_) =>
      case Ok(f) =>
        AddFieldResolves(t, f);
        AddItemsStep(t, kind, items);
        if !PkUnreadable(f) {
          var t1 := AddFieldTo(t, f).after;
          AddItemsResolves(t1, kind, items[1..]);
          assert (forall j :: 0 <= j < |items| ==> Addable(kind, items[j])) <==>
                 (forall j :: 0 <= j < |items[1..]| ==> Addable(kind, items[1..][j])) by {
            assert forall j :: 1 <= j < |items| ==> items[1..][j - 1] == items[j];
          }
        }
    }
  }

  /** With every item named, binding keeps the table's one primary key consistent. */
  lemma {:induction false} AddItemsKeepsConsistent(t: Table, kind: Kind, items: seq<Value>)
    requires WellKeyed(t.fields) && PkConsistent(t)
    requires forall x :: x in items && NewField(kind, x).Ok? ==> NewField(kind, x).value.identifier != ""
    ensures AddItems(t, kind, items).Ok? ==> PkConsistent(AddItems(t, kind, items).value)
    decreases |items|
  {
    if items != [] {
      match NewField(kind, items[0])
      case Err(_) =>
      case Ok(f) =>
        assert items[0] in items;
        AddFieldKeepsConsistent(t, f);
        var a := AddFieldTo(t, f);
        if a.outcome.Ok? {
          assert forall x :: x in items[1..] ==> x in items;
          AddItemsKeepsConsistent(a.after, kind, items[1..]);
        }
    }
  }

  /** A section, once bound, is gone from the dictionary, and no other entry changed. */
  lemma BindSectionPops(t: Table, d: Pairs<Value>, key: string, kind: Kind)
    requires WellKeyed(t.fields)
    requires BindSection(t, d, key, kind).Ok?
    ensures Get(BindSection(t, d, key, kind).value.1, key).None?
    ensures forall k :: k != key ==> Get(BindSection(t, d, key, kind).value.1, k) == Get(d, k)
  {
    forall k ensures k != key ==> Get(Pop(d, key), k) == Get(d, k) {
      PopGet(d, key, k);
    }
    PopGet(d, key, key);
  }

  /** After the sections from `i` on, none of them is left and every other entry is as it was. */
  lemma {:induction false} BindSectionsPop(t: Table, d: Pairs<Value>, i: nat)
    requires WellKeyed(t.fields) && i <= |SECTIONS|
    requires BindSections(t, d, i).Ok?
    ensures forall j :: i <= j < |SECTIONS| ==> Get(BindSections(t, d, i).value.1, SECTIONS[j].0).None?
    ensures forall k :: (forall j :: i <= j < |SECTIONS| ==> k != SECTIONS[j].0) ==>
              Get(BindSections(t, d, i).value.1, k) == Get(d, k)
    decreases |SECTIONS| - i
  {
    if i < |SECTIONS| {
      var key := SECTIONS[i].0;
      var p := BindSection(t, d, key, SECTIONS[i].1).value;
      var r := BindSections(t, d, i).value;
      assert r == BindSections(p.0, p.1, i + 1).value;
      BindSectionPops(t, d, key, SECTIONS[i].1);
      BindSectionsPop(p.0, p.1, i + 1);
      SectionsDistinct();
      forall j | i <= j < |SECTIONS|
        ensures Get(r.1, SECTIONS[j].0).None?
      {
        if j == i {
          assert forall j' :: i + 1 <= j' < |SECTIONS| ==> key != SECTIONS[j'].0;
          assert Get(r.1, key) == Get(p.1, key);
        }
      }
      forall k | forall j :: i <= j < |SECTIONS| ==> k != SECTIONS[j].0
        ensures Get(r.1, k) == Get(d, k)
      {
        assert k != key;
        assert Get(r.1, k) == Get(p.1, k);
      }
    }
  }

  /** The five section names are different. */
  lemma SectionsDistinct()
    ensures forall a, b :: 0 <= a < b < |SECTIONS| ==> SECTIONS[a].0 != SECTIONS[b].0
  {
  }

  /** Binding entries never introduces a key that neither the dictionary nor the entries have. */
  lemma {:induction false} BindAbsent(e: Pairs<Value>, input: Pairs<Value>, k: string)
    requires Regular(e) && Get(e, k).None? && Get(input, k).None?
    ensures Get(BindProps(e, input), k).None?
    decreases |input|
  {
    if input != [] {
      var n := input[0].0;
      assert n != k;
      if n in NONUNIQUE_PROPERTIES {
        var index := match Get(e, n) case None => List([]) case Some(x) => x;
        PutOther(e, n, List(index.items + [input[0].1]), k);
      } else {
        PutOther(e, n, input[0].1, k);
      }
      BindAbsent(SetProp(e, n, input[0].1), input[1..], k);
    }
  }

  /**
   * A view built from a dictionary keeps no field section and no name among
   * its own properties, and its key resolves.
   */
  lemma NewViewSections(d: Pairs<Value>)
    requires NewView(Dict(d)).Ok?
    ensures forall j :: 0 <= j < |SECTIONS| ==> Get(NewView(Dict(d)).value.props, SECTIONS[j].0).None?
    ensures Get(NewView(Dict(d)).value.props, "name").None?
    ensures PkResolves(NewView(Dict(d)).value.table)
  {
    var p := BindSections(EmptyTable(), d, 0).value;
    BindSectionsPop(EmptyTable(), d, 0);
    BindSectionsResolve(EmptyTable(), d, 0);
    var rest := Pop(p.1, "name");
    forall j | 0 <= j < |SECTIONS| ensures Get(NewView(Dict(d)).value.props, SECTIONS[j].0).None? {
      PopGet(p.1, "name", SECTIONS[j].0);
      BindAbsent([], rest, SECTIONS[j].0);
    }
  }

  /** A section keeps the key resolving. */
  lemma BindSectionResolves(t: Table, d: Pairs<Value>, key: string, kind: Kind)
    requires WellKeyed(t.fields) && PkResolves(t)
    requires BindSection(t, d, key, kind).Ok?
    ensures PkResolves(BindSection(t, d, key, kind).value.0)
  {
    if Get(d, key).Some? {
      AddItemsResolves(t, kind, Occurrences(Get(d, key).value).value);
    }
  }

  /** One step of `BindSections`: the section at `i`, then the ones after it on what it left. */
  lemma BindSectionsStep(t: Table, d: Pairs<Value>, i: nat)
    requires WellKeyed(t.fields) && i < |SECTIONS|
    requires BindSections(t, d, i).Ok?
    ensures BindSection(t, d, SECTIONS[i].0, SECTIONS[i].1).Ok?
    ensures var q := BindSection(t, d, SECTIONS[i].0, SECTIONS[i].1).value;
            BindSections(t, d, i) == BindSections(q.0, q.1, i + 1)
  {
  }

  /** Every section keeps the key resolving. */
  lemma {:induction false} BindSectionsResolve(t: Table, d: Pairs<Value>, i: nat)
    requires WellKeyed(t.fields) && i <= |SECTIONS| && PkResolves(t)
    requires BindSections(t, d, i).Ok?
    ensures PkResolves(BindSections(t, d, i).value.0)
    decreases |SECTIONS| - i
  {
    if i < |SECTIONS| {
      var key, kind := SECTIONS[i].0, SECTIONS[i].1;
      var q := BindSection(t, d, key, kind);
      BindSectionsStep(t, d, i);
      BindSectionResolves(t, d, key, kind);
      BindSectionsResolve(q.value.0, q.value.1, i + 1);
    }
  }

  /** A section that lists field names gives a view holding exactly those names. */
  lemma NamedSection(key: string, kind: Kind, names: seq<string>)
    requires kind != DimensionGroup && (key, kind) in SECTIONS
    ensures var items := seq(|names|, j requires 0 <= j < |names| => Str(names[j]));
      var r := BindSection(EmptyTable(), [(key, List(items))], key, kind);
      r.Ok? && (set k | k in Keys(r.value.0.fields)) == (set n | n in names) && r.value.1 == []
  {
    var items := seq(|names|, j requires 0 <= j < |names| => Str(names[j]));
    var t := EmptyTable();
    AddItemsResolves(t, kind, items);
    var u := AddItems(t, kind, items).value;
    AddItemsStores(t, kind, items);
    forall n | n in names ensures n in Keys(u.fields) {
      var j :| 0 <= j < |names| && names[j] == n;
      assert NewField(kind, items[j]).value.identifier == n;
    }
    forall k | k in Keys(u.fields) ensures k in names {
      AddItemsOnly(t, kind, items, k);
      var j :| 0 <= j < |items| && NewField(kind, items[j]).Ok? && NewField(kind, items[j]).value.identifier == k;
      assert k == names[j];
    }
    assert Keys([(key, List(items))]) == [key];
    PopPresent([(key, List(items))], key);
  }

  // --------------------------------------------------------------- __str__

  /** `[str(p)]` for one property. */
  function Shown(p: Property): (r: Result<seq<string>>)
    ensures r.Ok? <==> RenderProperty(p).Ok?
    ensures r.Ok? ==> r.value == [RenderProperty(p).value]
  {
    var s :- RenderProperty(p);
    Ok([s])
  }

  /**
   * `[str(p) for p in getProperties() if (p.name == "sets") == sets]`: every
   * pair becomes a property, and only the selected ones are rendered.
   */
  function RenderSelected(ps: seq<(string, Value)>, sets: bool): (r: Result<seq<string>>)
    decreases |ps|
  {
    if ps == [] then Ok([])
    else
      var p :- MakeProperty(ps[0].0, ps[0].1);
      var here :- if (p.name == "sets") == sets then Shown(p) else Ok([]);
      var rest :- RenderSelected(ps[1..], sets);
      Ok(here + rest)
  }

  /** The view's own properties without its `sets` (or only its `sets`), rendered. */
  function ViewProps(e: Pairs<Value>, sets: bool): Result<seq<string>>
  {
    var x := GetProperties(Dict(e), None);
    var rs :- RenderSelected(x.pairs, sets);
    if x.failed then Err(TypeError) else Ok(rs)
  }

  /** `[str(f) for f in fields]`: the first failure wins. */
  function RenderFields(fs: seq<Field>): (r: Result<seq<string>>)
    ensures r.Ok? ==> |r.value| == |fs|
    ensures r.Ok? <==> forall i :: 0 <= i < |fs| ==> RenderField(fs[i]).Ok?
    ensures r.Ok? ==> forall i :: 0 <= i < |fs| ==> r.value[i] == RenderField(fs[i]).value
  {
    if fs == [] then Ok([])
    else
      var s :- RenderField(fs[0]);
      var rest :- RenderFields(fs[1..]);
      Ok([s] + rest)
  }

  /** `stringify(sortMe(self.<kind>s()))`: one kind, sorted by name, each on its own indented line. */
  function Section(fs: Pairs<Field>, k: Kind): Result<string>
  {
    var rs :- RenderFields(SortMe(OfKind(ODict.Values(fs), k)));
    Ok(Stringify(rs, NEWLINEINDENT, true, false))
  }

  /** The five field sections in template order: parameters, filters, dimensions, dimension groups, measures. */
  function Sections(fs: Pairs<Field>): (r: Result<seq<string>>)
    ensures r.Ok? ==> |r.value| == 5
  {
    var parameters :- Section(fs, Parameter);
    var filters :- Section(fs, Filter);
    var dims :- Section(fs, Dimension);
    var groups :- Section(fs, DimensionGroup);
    var measures :- Section(fs, Measure);
    Ok([parameters, filters, dims, groups, measures])
  }

  /**
   * The view template filled with the properties, the five field sections,
   * the sets and the child views (both rendered by the caller), before tidying.
   */
  function ViewBody(message: string, identifier: string, e: Pairs<Value>, sections: Result<seq<string>>,
                    children: Result<string>): Result<string>
    requires sections.Ok? ==> |sections.value| == 5
  {
    var props :- ViewProps(e, false);
    var s :- sections;
    var sets :- ViewProps(e, true);
    var c :- children;
    Ok(ViewTemplate(MessageLine(message), identifier, Stringify(props, NEWLINEINDENT, true, false),
                    s[0], s[1], s[2], s[3], s[4], Stringify(sets, NEWLINEINDENT, true, false), c))
  }

  /** `View.__str__`: the filled template, tidied. */
  function RenderView(message: string, identifier: string, e: Pairs<Value>, t: Table,
                      children: Result<string>): Result<string>
  {
    var body :- ViewBody(message, identifier, e, Sections(t.fields), children);
    Ok(Tidy(body))
  }

  // ------------------------------------------------------ rendering lemmas

  /**
   * The properties rendered without the sets and the sets rendered alone
   * succeed exactly when all of them render, and together they are all of them.
   */
  lemma {:induction false} SelectedSplit(ps: seq<(string, Value)>, bound: nat)
    requires forall p :: p in ps ==> Height(p.1) < bound
    ensures RenderPairs(ps, bound).Ok? <==> RenderSelected(ps, false).Ok? && RenderSelected(ps, true).Ok?
    ensures RenderPairs(ps, bound).Ok? ==>
              multiset(RenderPairs(ps, bound).value) ==
              multiset(RenderSelected(ps, false).value) + multiset(RenderSelected(ps, true).value)
    decreases |ps|
  {
    if ps != [] {
      assert forall p :: p in ps[1..] ==> p in ps;
      SelectedSplit(ps[1..], bound);
      match MakeProperty(ps[0].0, ps[0].1)
      case Err(_) =>
      case Ok(p) =>
        match RenderProperty(p)
        case Err(_) =>
          if p.name == "sets" {
            assert RenderSelected(ps, true).Err?;
          } else {
            assert RenderSelected(ps, false).Err?;
          }
        case Ok(s) =>
          var all := RenderPairs(ps, bound);
          assert all.Ok? ==> all.value == [s] + RenderPairs(ps[1..], bound).value;
    }
  }

  /** A view's two property lists split `getProperties` between them. */
  lemma ViewPropsSplit(e: Pairs<Value>)
    ensures RenderPropList(e).Ok? <==> ViewProps(e, false).Ok? && ViewProps(e, true).Ok?
    ensures RenderPropList(e).Ok? ==>
              multiset(RenderPropList(e).value) == multiset(ViewProps(e, false).value) + multiset(ViewProps(e, true).value)
  {
    var x := GetProperties(Dict(e), None);
    SelectedSplit(x.pairs, Height(Dict(e)));
  }

  /** Every partition of the view lists the same fields when the view holds the same fields. */
  lemma OfKindSame(xs: seq<Field>, ys: seq<Field>, k: Kind)
    requires multiset(xs) == multiset(ys)
    ensures multiset(OfKind(xs, k)) == multiset(OfKind(ys, k))
    ensures multiset(OfKind(xs, k)) <= multiset(xs)
  {
    forall f ensures multiset(OfKind(xs, k))[f] == multiset(OfKind(ys, k))[f] {
      OfKindCount(xs, k, f);
      OfKindCount(ys, k, f);
    }
    forall f ensures multiset(OfKind(xs, k))[f] <= multiset(xs)[f] {
      OfKindCount(xs, k, f);
    }
  }

  /** In a well-keyed table no two fields share a name. */
  lemma NamesDistinct(fs: Pairs<Field>)
    requires WellKeyed(fs)
    ensures DistinctKeys(ODict.Values(fs), Ident)
  {
    var vs := ODict.Values(fs);
    forall i, j | 0 <= i < j < |vs| ensures Ident(vs[i]) != Ident(vs[j]) {
      assert Ident(vs[i]) == Keys(fs)[i] && Ident(vs[j]) == Keys(fs)[j];
    }
  }

  /** Each section depends only on which fields the view holds, never on the order they were added in. */
  lemma SectionOrderFree(fs: Pairs<Field>, gs: Pairs<Field>, k: Kind)
    requires WellKeyed(fs)
    requires multiset(ODict.Values(fs)) == multiset(ODict.Values(gs))
    ensures Section(fs, k) == Section(gs, k)
  {
    var a := OfKind(ODict.Values(fs), k);
    OfKindSame(ODict.Values(fs), ODict.Values(gs), k);
    NamesDistinct(fs);
    forall i, j | 0 <= i < j < |a| ensures Ident(a[i]) != Ident(a[j]) {
      DistinctKeysPermuted(ODict.Values(fs), a, Ident, i, j);
    }
    SortByDeterministic(a, OfKind(ODict.Values(gs), k), Ident);
  }

  /**
   * `str(view)` depends only on which fields the view holds: two views with
   * the same properties and the same fields, added in any order, print the same.
   */
  lemma RenderViewOrderFree(message: string, identifier: string, e: Pairs<Value>, t: Table, u: Table,
                            children: Result<string>)
    requires WellKeyed(t.fields)
    requires multiset(ODict.Values(t.fields)) == multiset(ODict.Values(u.fields))
    ensures RenderView(message, identifier, e, t, children) == RenderView(message, identifier, e, u, children)
  {
    SectionsOrderFree(t.fields, u.fields);
  }

  lemma SectionsOrderFree(fs: Pairs<Field>, gs: Pairs<Field>)
    requires WellKeyed(fs)
    requires multiset(ODict.Values(fs)) == multiset(ODict.Values(gs))
    ensures Sections(fs) == Sections(gs)
  {
    SectionOrderFree(fs, gs, Parameter);
    SectionOrderFree(fs, gs, Filter);
    SectionOrderFree(fs, gs, Dimension);
    SectionOrderFree(fs, gs, DimensionGroup);
    SectionOrderFree(fs, gs, Measure);
  }

  /** A rendered view is tidy: tidying it again changes nothing and it has no ten blanks in a row. */
  lemma RenderViewTidy(message: string, identifier: string, e: Pairs<Value>, t: Table, children: Result<string>)
    requires RenderView(message, identifier, e, t, children).Ok?
    ensures var r := RenderView(message, identifier, e, t, children).value;
      Tidy(r) == r && NoLongRun(r)
  {
    var body := ViewBody(message, identifier, e, Sections(t.fields), children).value;
    TidyIdempotent(body);
    TidyNoLongRun(body);
  }

  /**
   * `extend` stores `extends` as a plain string, and `extends` renders through
   * the bracket shape, which needs a collection: such a view cannot be printed.
   */
  lemma ExtendsStringUnprintable(e: Pairs<Value>, parent: string)
    requires e == [("extends", Str(parent))]
    ensures ViewProps(e, false) == Err(AttributeError)
  {
    SpecialShapes("extends");
    assert "extends" !in NONUNIQUE_PROPERTIES;
    assert e[1..] == [] && ExpandEntries(e[1..]) == Expansion([], false);
    assert ExpandEntry("extends", Str(parent)) == Expansion([("extends", Str(parent))], false);
    assert GetProperties(Dict(e), None) == Expansion([("extends", Str(parent))], false);
  }
}

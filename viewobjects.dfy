/**
 * The `View` object of lookml/lookml.py: its fields, primary key, own
 * properties and child views are updated in place by its methods, each of
 * which is proved to leave exactly the state the corresponding function of
 * modules Views, ViewEdits, Renames and ViewBind describes.
 */
module ViewObjects {
  import opened Results
  import opened ODict
  import opened Values
  import opened Config
  import opened Text
  import opened Props
  import opened Base
  import opened Fields
  import opened Views
  import opened ViewEdits
  import opened Renames
  import opened ViewBind

  class View {
    var identifier: string
    var message: string
    /** The view's own properties (`self.properties.schema`). */
    var props: Pairs<Value>
    /** `_fields`, keyed by identifier, in insertion order. */
    var fields: Pairs<Field>
    var primaryKey: string
    /** The views `extend` created in the same file, keyed by name. */
    var children: Pairs<View>
    var parent: View?
    ghost var Repr: set<object>

    /** The view and, below it, every child view with its own footprint. */
    ghost predicate Valid()
      reads this, Repr
      decreases Repr
    {
      this in Repr && Regular(props) && WellKeyed(fields) &&
      forall i :: 0 <= i < |children| ==>
        children[i].1 in Repr && children[i].1.Repr <= Repr && this !in children[i].1.Repr &&
        children[i].1.Valid()
    }

    /** The field table and the primary key. */
    function State(): Table
      reads this
    {
      Table(fields, primaryKey)
    }

    /** Everything a view built from a dictionary is made of. */
    function Snapshot(): ViewState
      reads this
    {
      ViewState(identifier, props, State())
    }

    /** Nothing but the field table and the key changed. */
    twostate predicate TableOnly()
      reads this
    {
      identifier == old(identifier) && message == old(message) && props == old(props) &&
      children == old(children) && parent == old(parent) && Repr == old(Repr)
    }

    /** `View(name)`. */
    constructor (name: string)
      ensures Valid() && fresh(Repr)
      ensures identifier == name && message == "" && props == [] && State() == EmptyTable()
      ensures children == [] && parent == null
    {
      identifier := name;
      message := "";
      props := [];
      fields := [];
      primaryKey := "";
      children := [];
      parent := null;
      Repr := {this};
    }

    // ------------------------------------------------------ construction

    /**
     * `View(input)`: a string names the view; a dictionary has its field
     * sections added first, then its name and the remaining entries bound;
     * anything else gives an empty view.
     */
    static method FromValue(input: Value) returns (r: Result<View>)
      ensures r.Ok? <==> NewView(input).Ok?
      ensures r.Ok? ==> fresh(r.value.Repr) && r.value.Valid() && r.value.Snapshot() == NewView(input).value
      ensures r.Ok? ==> r.value.children == [] && r.value.parent == null && r.value.message == ""
    {
      match input
      case Str(s) =>
        var v := new View(s);
        r := Ok(v);
      case Dict(d) =>
        var v := new View("");
        var rest := d;
        var i := 0;
        while i < |SECTIONS|
          invariant 0 <= i <= |SECTIONS|
          invariant fresh(v.Repr) && v.Valid() && v.identifier == "" && v.props == [] && v.message == ""
          invariant v.children == [] && v.parent == null
          invariant BindSections(EmptyTable(), d, 0) == BindSections(v.State(), rest, i)
        {
          var next := v.BindSection(rest, SECTIONS[i].0, SECTIONS[i].1);
          if next.Err? {
            r := Err(next.error);
            return;
          }
          rest := next.value;
          i := i + 1;
        }
        var name := Get(rest, "name");
        if name.Some? && !name.value.Str? {
          r := Err(TypeError);
          return;
        }
        if name.Some? {
          v.identifier := name.value.s;
        }
        v.BindEntries(Pop(rest, "name"));
        r := Ok(v);
      case _ =>
        var v := new View("");
        r := Ok(v);
    }

    /** `for field in items: self + Kind(field)`. */
    method BindItems(kind: Kind, items: seq<Value>) returns (r: Result<()>)
      requires Valid()
      modifies this
      ensures Valid() && TableOnly()
      ensures r.Ok? <==> AddItems(old(State()), kind, items).Ok?
      ensures r.Ok? ==> State() == AddItems(old(State()), kind, items).value
    {
      var res := AddLoop(State(), kind, items);
      if res.Err? {
        r := Err(res.error);
        return;
      }
      fields, primaryKey := res.value.fields, res.value.pk;
      r := Ok(());
    }

    /** The same loop over the field table alone; the first field that cannot be built or added stops it. */
    static method AddLoop(t: Table, kind: Kind, items: seq<Value>) returns (r: Result<Table>)
      requires WellKeyed(t.fields)
      ensures r == AddItems(t, kind, items)
    {
      var cur := t;
      var j := 0;
      while j < |items|
        invariant 0 <= j <= |items| && WellKeyed(cur.fields)
        invariant AddItems(t, kind, items) == AddItems(cur, kind, items[j..])
      {
        assert items[j..][0] == items[j] && items[j..][1..] == items[j + 1..];
        var f := NewField(kind, items[j]);
        if f.Err? {
          return Err(f.error);
        }
        var added := AddFieldTo(cur, f.value);
        if added.outcome.Err? {
          return Err(added.outcome.error);
        }
        cur := added.after;
        j := j + 1;
      }
      assert items[j..] == [];
      r := Ok(cur);
    }

    /** One section of `_bind_lkml`: its fields added and the section popped from what is left to bind. */
    method BindSection(d: Pairs<Value>, key: string, kind: Kind) returns (r: Result<Pairs<Value>>)
      requires Valid()
      modifies this
      ensures Valid() && TableOnly()
      ensures r.Ok? <==> ViewBind.BindSection(old(State()), d, key, kind).Ok?
      ensures r.Ok? ==> ViewBind.BindSection(old(State()), d, key, kind).value == (State(), r.value)
    {
      match Get(d, key)
      case None =>
        r := Ok(d);
      case Some(section) =>
        match Occurrences(section)
        case None =>
          r := Err(TypeError);
        case Some(items) =>
          var added := BindItems(kind, items);
          if added.Err? {
            r := Err(added.error);
          } else {
            r := Ok(Pop(d, key));
          }
    }

    /** The loop of the base `_bind_lkml`: `setProperty(k, v)` for every remaining entry. */
    method BindEntries(entries: Pairs<Value>)
      requires Valid()
      modifies this
      ensures Valid() && State() == old(State()) && identifier == old(identifier) && message == old(message)
      ensures children == old(children) && parent == old(parent) && Repr == old(Repr)
      ensures props == BindProps(old(props), entries)
    {
      var k := 0;
      while k < |entries|
        invariant 0 <= k <= |entries|
        invariant Valid() && State() == old(State()) && identifier == old(identifier) && message == old(message)
        invariant children == old(children) && parent == old(parent) && Repr == old(Repr)
        invariant BindProps(old(props), entries) == BindProps(props, entries[k..])
      {
        assert entries[k..][1..] == entries[k + 1..];
        props := SetProp(props, entries[k].0, entries[k].1);
        k := k + 1;
      }
    }

    // ---------------------------------------------------------- queries

    /** `__contains__`. */
    function Has(name: string): (b: bool)
      reads this
      ensures b <==> Lookup(fields, name).Ok?
    {
      name in Keys(fields)
    }

    /** `field(name)`: the stored field, or a `KeyError`. */
    function FieldNamed(name: string): (r: Result<Field>)
      reads this
      requires WellKeyed(fields)
      ensures r.Ok? ==> r.value.identifier == name && Has(name)
      ensures r.Err? <==> !Has(name)
    {
      var r := Lookup(fields, name);
      if r.Ok? then Found(fields, name); r else r
    }

    /** `fieldNames()`: the names in insertion order, each naming its own field. */
    function FieldNames(): (ns: seq<string>)
      reads this
      requires WellKeyed(fields)
      ensures |ns| == |fields|
      ensures forall i :: 0 <= i < |ns| ==> Lookup(fields, ns[i]).Ok? && Lookup(fields, ns[i]).value.identifier == ns[i]
    {
      var ns := Keys(fields);
      assert forall i :: 0 <= i < |ns| ==> ns[i] in ns;
      forall i | 0 <= i < |ns| ensures Lookup(fields, ns[i]).Ok? && Lookup(fields, ns[i]).value.identifier == ns[i] {
        GetMisses(fields, ns[i]);
        Found(fields, ns[i]);
      }
      ns
    }

    /** `__len__`: every field counted once, and so the sum of the five partitions. */
    function Length(): (n: nat)
      reads this
      ensures n == |OfKind(ODict.Values(fields), Dimension)| + |OfKind(ODict.Values(fields), DimensionGroup)|
                   + |OfKind(ODict.Values(fields), Measure)| + |OfKind(ODict.Values(fields), Filter)|
                   + |OfKind(ODict.Values(fields), Parameter)|
    {
      PartitionSizes(ODict.Values(fields));
      |fields|
    }

    /** `getPrimaryKey()`: the key's field, nothing for an empty key, a `KeyError` for a dangling one. */
    function GetPrimaryKey(): (r: Result<Option<Field>>)
      reads this
      ensures r.Err? <==> !PkResolves(State())
      ensures primaryKey == "" ==> r == Ok(None)
      ensures primaryKey != "" && r.Ok? ==> r.value.Some? && Lookup(fields, primaryKey) == Ok(r.value.value)
    {
      PrimaryKeyField(State())
    }

    /** `getFieldsSorted()`. */
    function GetFieldsSorted(): (fs: seq<Field>)
      reads this
      ensures multiset(fs) == multiset(ODict.Values(fields))
      ensures forall i, j :: 0 <= i < j < |fs| && fs[i].kind == Measure ==> fs[j].kind == Measure
    {
      FieldsSortedOrder(fields);
      FieldsSorted(fields)
    }

    // ---------------------------------------------------- field registry

    /** `addField(f)`. */
    method AddField(f: Field) returns (r: Result<()>)
      requires Valid() && ValidField(f)
      modifies this
      ensures Valid() && TableOnly()
      ensures State() == AddFieldTo(old(State()), f).after && r == AddFieldTo(old(State()), f).outcome
    {
      var run := AddFieldTo(State(), f);
      fields := run.after.fields;
      primaryKey := run.after.pk;
      r := run.outcome;
    }

    /** `removeField(name)`: the removed field, or what it raised. */
    method RemoveField(name: string) returns (r: Result<Field>)
      requires Valid()
      modifies this
      ensures Valid() && TableOnly()
      ensures State() == RemoveFieldFrom(old(State()), name).after && r == RemoveFieldFrom(old(State()), name).outcome
    {
      var run := RemoveFieldFrom(State(), name);
      fields := run.after.fields;
      primaryKey := run.after.pk;
      r := run.outcome;
    }

    /** `setPrimaryKey(name)`. */
    method SetPrimaryKey(name: string) returns (r: Result<()>)
      requires Valid()
      modifies this
      ensures Valid() && TableOnly()
      ensures State() == SetPk(old(State()), name).after && r == SetPk(old(State()), name).outcome
    {
      var run := SetPk(State(), name);
      fields := run.after.fields;
      primaryKey := run.after.pk;
      r := run.outcome;
    }

    /** `unSetPrimaryKey()`. */
    method UnSetPrimaryKey() returns (r: Result<()>)
      requires Valid()
      modifies this
      ensures Valid() && TableOnly()
      ensures State() == UnsetPk(old(State())).after && r == UnsetPk(old(State())).outcome
    {
      var run := UnsetPk(State());
      fields := run.after.fields;
      primaryKey := run.after.pk;
      r := run.outcome;
    }

    // --------------------------------------------------- derived fields

    /** `addDimension(col, type)`. */
    method AddDimension(col: string, ty: string)
      requires Valid()
      modifies this
      ensures Valid() && TableOnly()
      ensures State() == ViewEdits.AddDimension(old(State()), col, ty).after
    {
      AddDimensionEffect(State(), col, ty);
      var _ := AddField(TypedDimension(col, ty));
    }

    /** `addCount()`. */
    method AddCount()
      requires Valid()
      modifies this
      ensures Valid() && TableOnly()
      ensures State() == ViewEdits.AddCount(old(State())).after
    {
      var _ := AddField(CountMeasure());
    }

    /** `addSum(name)`. */
    method AddSum(name: string) returns (r: Result<()>)
      requires Valid()
      modifies this
      ensures Valid() && TableOnly()
      ensures State() == ViewEdits.AddSum(old(State()), name).after && r == ViewEdits.AddSum(old(State()), name).outcome
    {
      var f := Lookup(fields, name);
      if f.Err? {
        r := Err(f.error);
        return;
      }
      r := AddField(SumMeasure(f.value));
    }

    /** `addCountDistinct(name)`. */
    method AddCountDistinct(name: string) returns (r: Result<()>)
      requires Valid()
      modifies this
      ensures Valid() && TableOnly()
      ensures State() == ViewEdits.AddCountDistinct(old(State()), name).after
      ensures r == ViewEdits.AddCountDistinct(old(State()), name).outcome
    {
      var f := Lookup(fields, name);
      if f.Err? {
        r := Err(f.error);
        return;
      }
      r := AddField(CountDistinctMeasure(f.value));
    }

    /**
     * `sumAllNumDimensions()`: over a snapshot of the fields, add a total for
     * every number-typed dimension that has none yet.
     */
    method SumAllNumDimensions() returns (r: Result<()>)
      requires Valid()
      modifies this
      ensures Valid() && TableOnly()
      ensures State() == SumAll(old(State())).after && r == SumAll(old(State())).outcome
    {
      var run := SumLoop(State(), ODict.Values(fields));
      fields, primaryKey := run.after.fields, run.after.pk;
      r := run.outcome;
    }

    /** The same loop over the field table alone; a type that cannot be rendered stops it. */
    static method SumLoop(t: Table, todo: seq<Field>) returns (run: Run<()>)
      requires WellKeyed(t.fields)
      ensures run == SumFrom(t, todo)
    {
      var cur := t;
      var i := 0;
      while i < |todo|
        invariant 0 <= i <= |todo| && WellKeyed(cur.fields)
        invariant SumFrom(t, todo) == SumFrom(cur, todo[i..])
      {
        assert todo[i..][0] == todo[i] && todo[i..][1..] == todo[i + 1..];
        var f := todo[i];
        var isNumber := HasType(f, "number");
        if isNumber.Err? {
          assert SumFrom(cur, todo[i..]) == Run(cur, Err(isNumber.error));
          return Run(cur, Err(isNumber.error));
        }
        if isNumber.value && "total_" + f.identifier !in Keys(cur.fields) && f.kind == Dimension {
          assert SumFrom(cur, todo[i..]) == SumFrom(AddFieldTo(cur, TotalMeasure(f)).after, todo[i + 1..]);
          cur := AddFieldTo(cur, TotalMeasure(f)).after;
        } else {
          assert SumFrom(cur, todo[i..]) == SumFrom(cur, todo[i + 1..]);
        }
        i := i + 1;
      }
      assert todo[i..] == [];
      run := Run(cur, Ok(()));
    }

    /** One loop of `~view`: `hide()` every field of kind `k`, in place. */
    method HideAll(k: Kind)
      requires Valid()
      modifies this
      ensures Valid() && TableOnly()
      ensures fields == HideKind(old(fields), k) && primaryKey == old(primaryKey)
    {
      HideKindKeeps(fields, k);
      fields := HideLoop(fields, k);
    }

    /** The pass over the field table alone: each field of kind `k` replaced by its hidden copy. */
    static method HideLoop(before: Pairs<Field>, k: Kind) returns (fs: Pairs<Field>)
      requires WellKeyed(before)
      ensures fs == HideKind(before, k)
    {
      ghost var target := HideKind(before, k);
      fs := before;
      var i := 0;
      while i < |fs|
        invariant 0 <= i <= |fs| == |before| == |target|
        invariant forall j :: 0 <= j < i ==> fs[j] == target[j]
        invariant forall j :: i <= j < |fs| ==> fs[j] == before[j]
      {
        if fs[i].1.kind == k {
          fs := fs[i := (fs[i].0, Hide(fs[i].1))];
        }
        i := i + 1;
      }
    }

    /** `__invert__`: hide the dimensions, dimension groups, parameters and filters. */
    method Invert()
      requires Valid()
      modifies this
      ensures Valid() && TableOnly()
      ensures State() == ViewEdits.Invert(old(State()))
    {
      HideAll(Dimension);
      HideAll(DimensionGroup);
      HideAll(Parameter);
      HideAll(Filter);
    }

    /**
     * `field.setName_safe(newName)` for the field `oldName` of this view:
     * rewrite the references in every field's `sql`, then move the field to
     * its new name, keeping it the primary key when it was one.
     */
    method RenameField(oldName: string, newName: string) returns (r: Result<()>)
      requires Valid()
      modifies this
      ensures Valid() && TableOnly()
      ensures State() == Renames.RenameField(old(State()), identifier, oldName, newName).after
      ensures r == Renames.RenameField(old(State()), identifier, oldName, newName).outcome
    {
      var rewritten := RewriteSql(oldName, newName);
      if rewritten.Err? {
        r := rewritten;
        return;
      }
      var marked := IsMarked(fields, oldName);
      var removed := RemoveField(oldName);
      if removed.Err? {
        r := Err(removed.error);
        return;
      }
      var added := AddField(removed.value.(identifier := newName));
      if marked && added.Ok? {
        r := SetPrimaryKey(newName);
      } else {
        r := added;
      }
    }

    /** The loop of `setName_safe` over the fields `search` finds: rewrite each `sql` in place. */
    method RewriteSql(oldName: string, newName: string) returns (r: Result<()>)
      requires Valid()
      modifies this
      ensures Valid() && TableOnly()
      ensures State() == RewriteAll(old(State()), identifier, oldName, newName).after
      ensures r == RewriteAll(old(State()), identifier, oldName, newName).outcome
    {
      var run := RewriteLoop(State(), identifier, oldName, newName);
      fields := run.after.fields;
      r := run.outcome;
    }

    /** The same loop over the field table alone; a field whose `sql` cannot be rendered stops it. */
    static method RewriteLoop(t: Table, view: string, oldName: string, newName: string) returns (run: Run<()>)
      requires WellKeyed(t.fields)
      ensures run == RewriteAll(t, view, oldName, newName)
    {
      var fs := t.fields;
      var i := 0;
      while i < |fs|
        invariant 0 <= i <= |fs| && WellKeyed(fs)
        invariant RewriteAll(t, view, oldName, newName) == RewriteFrom(Table(fs, t.pk), i, view, oldName, newName)
      {
        ghost var cur := Table(fs, t.pk);
        var g := Rewritten(fs[i].1, view, oldName, newName);
        if g.Err? {
          assert RewriteFrom(cur, i, view, oldName, newName) == Run(cur, Err(g.error));
          return Run(Table(fs, t.pk), Err(g.error));
        }
        SetAtWellKeyed(fs, i, g.value);
        assert RewriteFrom(cur, i, view, oldName, newName) ==
               RewriteFrom(Table(fs[i := (fs[i].0, g.value)], t.pk), i + 1, view, oldName, newName);
        fs := fs[i := (fs[i].0, g.value)];
        i := i + 1;
      }
      run := Run(Table(fs, t.pk), Ok(()));
    }

    // ------------------------------------------------------ child views

    /** `setExtensionRequired()`. */
    method SetExtensionRequired()
      requires Valid()
      modifies this
      ensures Valid() && State() == old(State()) && children == old(children) && Repr == old(Repr)
      ensures identifier == old(identifier) && message == old(message) && parent == old(parent)
      ensures props == SetProp(old(props), "extension", Str("required"))
      ensures Get(props, "extension") == Some(Str("required"))
      ensures forall k :: k != "extension" ==> Get(props, k) == Get(old(props), k)
    {
      AddOverwrites(props, "extension", Str("required"));
      props := SetProp(props, "extension", Str("required"));
    }

    /**
     * `extend(name, sameFile, required)`: a new view, named `name` or after
     * this one, that extends this one and points back to it; kept among the
     * children when it is in the same file.
     */
    method Extend(name: string, sameFile: bool, required: bool) returns (child: View)
      requires Valid()
      modifies this
      ensures Valid() && fresh(child) && child.Valid() && fresh(Repr - old(Repr))
      ensures State() == old(State()) && identifier == old(identifier)
      ensures child.identifier == (if name == "" then old(identifier) + "_extended" else name)
      ensures child.props == [("extends", Str(old(identifier)))] && child.State() == EmptyTable()
      ensures child.parent == this && child.children == []
      ensures message == old(message) && parent == old(parent)
      ensures required ==> props == SetProp(old(props), "extension", Str("required"))
      ensures required ==> Get(props, "extension") == Some(Str("required"))
      ensures !required ==> props == old(props)
      ensures sameFile ==> children == Put(old(children), child.identifier, child)
      ensures !sameFile ==> children == old(children)
    {
      var childName := if name == "" then identifier + "_extended" else name;
      child := NewChild(childName, this);
      if required {
        SetExtensionRequired();
      }
      if sameFile {
        AddChild(child);
      }
    }

    /** The child `extend` builds: `View(name)` extending `parent` and pointing back to it. */
    static method NewChild(name: string, parent: View) returns (child: View)
      ensures fresh(child) && child.Valid() && fresh(child.Repr)
      ensures child.identifier == name && child.message == ""
      ensures child.props == [("extends", Str(parent.identifier))] && child.State() == EmptyTable()
      ensures child.parent == parent && child.children == []
    {
      child := new View(name);
      assert "extends" !in NONUNIQUE_PROPERTIES;
      SetPropPut([], "extends", Str(parent.identifier));
      assert Put([], "extends", Str(parent.identifier)) == [("extends", Str(parent.identifier))];
      child.props := SetProp(child.props, "extends", Str(parent.identifier));
      child.parent := parent;
    }

    /** `children.update({child.identifier: child})`. */
    method AddChild(child: View)
      requires Valid() && child.Valid() && this !in child.Repr
      modifies this
      ensures Valid() && State() == old(State()) && props == old(props)
      ensures identifier == old(identifier) && message == old(message) && parent == old(parent)
      ensures children == Put(old(children), child.identifier, child) && Repr == old(Repr) + child.Repr
    {
      ghost var before := children;
      children := Put(children, child.identifier, child);
      Repr := Repr + child.Repr;
      forall i | 0 <= i < |children|
        ensures children[i].1 in Repr && children[i].1.Repr <= Repr && this !in children[i].1.Repr
        ensures children[i].1.Valid()
      {
        assert children[i] in children;
        if children[i] != (child.identifier, child) {
          assert children[i] in before;
          var j :| 0 <= j < |before| && before[j] == children[i];
        }
      }
    }

    /** `view - child`: `children.pop(child.identifier, None)`. */
    method RemoveChild(name: string) returns (r: Option<View>)
      requires Valid()
      modifies this
      ensures Valid() && State() == old(State()) && props == old(props) && Repr == old(Repr)
      ensures identifier == old(identifier) && message == old(message) && parent == old(parent)
      ensures r == Get(old(children), name)
      ensures children == Pop(old(children), name) && Get(children, name).None?
    {
      r := Get(children, name);
      PopGet(children, name, name);
      children := Pop(children, name);
    }

    // -------------------------------------------------------------- __str__

    /** `str(view)`: the view, then its same-file children, each tidied. */
    function Render(): (r: Result<string>)
      requires Valid()
      reads this, Repr
      ensures r.Ok? ==> Tidy(r.value) == r.value && NoLongRun(r.value)
      decreases Repr, 2
    {
      var shown := if children == [] then Ok("") else RenderChildren(0);
      var r := RenderView(message, identifier, props, State(), shown);
      if r.Ok? then RenderViewTidy(message, identifier, props, State(), shown); r else r
    }

    /** `stringify(children.values())` from position `i` on. */
    function RenderChildren(i: nat): (r: Result<string>)
      requires Valid() && i <= |children|
      reads this, Repr
      decreases Repr, 1
    {
      var rs :- RenderChildList(i);
      Ok(Stringify(rs, NEWLINEINDENT, true, false))
    }

    /** `[str(c) for c in children.values()]` from position `i` on. */
    function RenderChildList(i: nat): (r: Result<seq<string>>)
      requires Valid() && i <= |children|
      reads this, Repr
      ensures r.Ok? ==> |r.value| == |children| - i
      decreases Repr, 0, |children| - i
    {
      if i == |children| then Ok([])
      else
        var c := children[i].1;
        var s :- c.Render();
        var rest :- RenderChildList(i + 1);
        Ok([s] + rest)
    }
  }
}

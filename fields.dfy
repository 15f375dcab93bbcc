/**
 * Fields of a view (`Field` and its subclasses `Dimension`, `DimensionGroup`,
 * `Measure`, `Filter` and `Parameter`): a name, a dictionary of properties,
 * and the operations that edit them.
 *
 * A field is modelled as a value held by its view; an operation returns the
 * edited field and the view stores it back under its name.
 */
module Fields {
  import opened Results
  import opened ODict
  import opened Values
  import opened Config
  import opened Text
  import opened Props
  import opened Base

  datatype Kind = Dimension | DimensionGroup | Measure | Filter | Parameter

  datatype Field = Field(kind: Kind, identifier: string, message: string, props: Pairs<Value>, dbColumn: string)

  /** The invariant every field keeps: its dictionary only ever changes through `addProperty`. */
  ghost predicate ValidField(f: Field)
  {
    Regular(f.props)
  }

  function KindToken(k: Kind): Token
  {
    match k
    case Dimension => DimensionToken
    case DimensionGroup => DimensionGroupToken
    case Measure => MeasureToken
    case Filter => FilterToken
    case Parameter => ParameterToken
  }

  /** `timeframes` as a dimension group writes it by default: the twelve timeframes, one per line. */
  const DEFAULT_TIMEFRAMES: string := "[" + Join(NEWLINEINDENT + ",", TIMEFRAMES) + "]"

  /** The default icon of `Dimension.addLink`. */
  const DEFAULT_ICON: string := "https://looker.com/favicon.ico"

  /** `if not isMember(k): addProperty(k, v)` for a key that does not repeat. */
  function SetIfAbsent(e: Pairs<Value>, k: string, v: Value): (r: Pairs<Value>)
    requires Regular(e) && k !in NONUNIQUE_PROPERTIES
    ensures Regular(r)
    ensures Get(r, k) == if k in Keys(e) then Get(e, k) else Some(v)
    ensures Get(r, k).Some?
    ensures forall k' :: k' != k ==> Get(r, k') == Get(e, k')
  {
    GetMisses(e, k);
    if k in Keys(e) then e
    else
      SetPropPut(e, k, v);
      PutGet(e, k, v);
      PutOthers(e, k, v);
      SetProp(e, k, v)
  }

  /**
   * The defaults a `DimensionGroup` adds at construction: the timeframes and
   * `type: time`, each only when the input did not give one.
   */
  function GroupDefaults(e: Pairs<Value>): (r: Pairs<Value>)
    requires Regular(e)
    ensures Regular(r)
    ensures Get(r, "timeframes") == (if "timeframes" in Keys(e) then Get(e, "timeframes") else Some(Str(DEFAULT_TIMEFRAMES)))
    ensures Get(r, "type") == (if "type" in Keys(e) then Get(e, "type") else Some(Str("time")))
    ensures forall k :: k != "timeframes" && k != "type" ==> Get(r, k) == Get(e, k)
  {
    assert "timeframes" !in NONUNIQUE_PROPERTIES && "type" !in NONUNIQUE_PROPERTIES;
    var e1 := SetIfAbsent(e, "timeframes", Str(DEFAULT_TIMEFRAMES));
    GetMisses(e, "type");
    GetMisses(e1, "type");
    SetIfAbsent(e1, "type", Str("time"))
  }

  /**
   * A field constructed from a name, or from a dictionary whose `name` entry
   * names it; any other input leaves the name empty and the dictionary empty.
   */
  function NewField(kind: Kind, input: Value): (r: Result<Field>)
    ensures r.Ok? ==> ValidField(r.value) && r.value.kind == kind && r.value.message == "" && r.value.dbColumn == ""
    ensures input.Str? ==> r.Ok? && r.value.identifier == input.s
    ensures input.Dict? ==> (r.Ok? <==> BindEntity(input.entries).Ok?)
    ensures input.Dict? && r.Ok? ==> r.value.identifier == BindEntity(input.entries).value.0
    ensures r.Ok? && kind == DimensionGroup ==>
              Get(r.value.props, "timeframes").Some? && Get(r.value.props, "type").Some?
    ensures r.Ok? && kind != DimensionGroup && input.Dict? ==> r.value.props == BindEntity(input.entries).value.1
    ensures r.Ok? && kind != DimensionGroup && !input.Dict? ==> r.value.props == []
  {
    var named :- match input
      case Str(s) => Ok((s, []))
      case Dict(d) => BindEntity(d)
      case _ => Ok(("", []));
    var props := if kind == DimensionGroup then GroupDefaults(named.1) else named.1;
    Ok(Field(kind, named.0, "", props, ""))
  }

  // ------------------------------------------------------------- references

  /** `__refs__`: `${field}`. */
  function Refs(f: Field): string
  {
    "${" + f.identifier + "}"
  }

  /** `__ref__`: `${view.field}`. */
  function Ref(view: string, f: Field): string
  {
    "${" + view + "." + f.identifier + "}"
  }

  /** `__refr__`: `view.field`. */
  function Refr(view: string, f: Field): string
  {
    view + "." + f.identifier
  }

  /** The full reference is the raw one between `${` and `}`, and every form follows the current names. */
  lemma RefForms(view: string, f: Field, n: string)
    ensures Ref(view, f) == "${" + Refr(view, f) + "}"
    ensures Refs(f.(identifier := n)) == "${" + n + "}"
    ensures Ref(view, f.(identifier := n)) == "${" + view + "." + n + "}"
  {
  }

  /** Different names give different short references. */
  lemma RefsInjective(f: Field, g: Field)
    requires Refs(f) == Refs(g)
    ensures f.identifier == g.identifier
  {
    assert f.identifier == Refs(f)[2..|Refs(f)| - 1];
    assert g.identifier == Refs(g)[2..|Refs(g)| - 1];
  }

  // ----------------------------------------------------------- primary key

  /** `Dimension.isPrimaryKey`: `primary_key` is present and is `yes`. */
  predicate IsPrimaryKey(f: Field)
  {
    f.kind == Dimension && Get(f.props, "primary_key") == Some(Str("yes"))
  }

  /**
   * `isPrimaryKey` reads `primary_key` through `getProperty`, which builds a
   * `Property` and so raises for a value that is neither a string, a list
   * nor a dictionary. This is the dimension on which that happens.
   */
  predicate PkUnreadable(f: Field)
  {
    f.kind == Dimension && Get(f.props, "primary_key") == Some(Other)
  }

  /**
   * `Dimension.isPrimaryKey()`, failure included: it raises exactly when the
   * stored `primary_key` cannot be read, and otherwise answers whether it is
   * the string `yes` (a list or a dictionary never is).
   */
  function CheckPrimaryKey(f: Field): (r: Result<bool>)
    requires f.kind == Dimension
    ensures r.Err? <==> PkUnreadable(f)
    ensures r.Err? ==> r.error == InvalidValue
    ensures r.Ok? ==> (r.value <==> IsPrimaryKey(f))
  {
    assert "primary_key" !in TAGGED_NAMES;
    match Get(f.props, "primary_key")
    case None => Ok(false)
    case Some(v) =>
      var p :- MakeProperty("primary_key", v);
      Ok(p.value == Plain("yes"))
  }

  /** `Dimension.setPrimaryKey`: mark it with `primary_key: yes`. */
  function Mark(f: Field): (r: Field)
    requires ValidField(f)
    ensures ValidField(r)
    ensures r.kind == f.kind && r.identifier == f.identifier
    ensures f.kind == Dimension ==> IsPrimaryKey(r)
    ensures forall k :: k != "primary_key" ==> Get(r.props, k) == Get(f.props, k)
  {
    assert "primary_key" !in NONUNIQUE_PROPERTIES;
    SetPropPut(f.props, "primary_key", Str("yes"));
    PutGet(f.props, "primary_key", Str("yes"));
    PutOthers(f.props, "primary_key", Str("yes"));
    f.(props := SetProp(f.props, "primary_key", Str("yes")))
  }

  /** `Dimension.unSetPrimaryKey` with `unSetProperty` corrected to a pop (`Base.UnsetProp`): drop the `primary_key` property. */
  function Unmark(f: Field): (r: Field)
    requires ValidField(f)
    ensures ValidField(r)
    ensures r.kind == f.kind && r.identifier == f.identifier
    ensures !IsPrimaryKey(r) && Get(r.props, "primary_key").None?
    ensures forall k :: k != "primary_key" ==> Get(r.props, k) == Get(f.props, k)
  {
    f.(props := UnsetProp(f.props, "primary_key"))
  }

  /** Marking then unmarking leaves a field that was not marked as it was. */
  lemma UnmarkUndoesMark(f: Field)
    requires ValidField(f) && "primary_key" !in Keys(f.props)
    ensures Unmark(Mark(f)) == f
  {
    var yes := Str("yes");
    assert "primary_key" !in NONUNIQUE_PROPERTIES;
    PutAbsent(f.props, "primary_key", yes);
    var m := Mark(f);
    assert m.props == Put(f.props, "primary_key", yes);
    PopLast(f.props, "primary_key", yes);
    assert Unmark(m).props == Pop(m.props, "primary_key");
  }

  // ---------------------------------------------------------- other edits

  /** The SQL `setDBColumn` writes for a database column. */
  function ColumnSql(col: string): string
  {
    "${TABLE}." + DB_FIELD_DELIMITER_START + col + DB_FIELD_DELIMITER_END
  }

  /**
   * `setDBColumn` (dimensions and dimension groups): remember the column,
   * point `sql` at it, and by default rename the field after it.
   */
  function SetDBColumn(f: Field, col: string, changeIdentifier: bool): (r: Field)
    requires ValidField(f) && (f.kind == Dimension || f.kind == DimensionGroup)
    ensures ValidField(r) && r.kind == f.kind && r.dbColumn == col
    ensures Get(r.props, "sql") == Some(Str("${TABLE}.`" + col + "`"))
    ensures forall k :: k != "sql" ==> Get(r.props, k) == Get(f.props, k)
    ensures changeIdentifier ==> r.identifier == LookCase(col) && NoUpper(r.identifier)
    ensures changeIdentifier ==> forall i :: 0 <= i < |r.identifier| ==> !IsStripped(r.identifier[i])
    ensures !changeIdentifier ==> r.identifier == f.identifier
  {
    ColumnProps(f.props, col);
    LookCaseClean(col);
    f.(dbColumn := col, props := SetProp(f.props, "sql", Str(ColumnSql(col))),
       identifier := if changeIdentifier then LookCase(col) else f.identifier)
  }

  /** Pointing `sql` at a column sets that one key and keeps the properties regular. */
  lemma ColumnProps(props: Pairs<Value>, col: string)
    requires Regular(props)
    ensures Regular(SetProp(props, "sql", Str(ColumnSql(col))))
    ensures Get(SetProp(props, "sql", Str(ColumnSql(col))), "sql") == Some(Str("${TABLE}.`" + col + "`"))
    ensures forall k :: k != "sql" ==> Get(SetProp(props, "sql", Str(ColumnSql(col))), k) == Get(props, k)
  {
    var sql := Str(ColumnSql(col));
    assert ColumnSql(col) == "${TABLE}.`" + col + "`";
    PutGet(props, "sql", sql);
    PutOthers(props, "sql", sql);
  }

  /** A plain overwrite through `setProperty`: `hide`, `setType`, `setSql`, `setLabel` and the like. */
  function SetField(f: Field, name: string, v: Value): (r: Field)
    requires ValidField(f) && name !in NONUNIQUE_PROPERTIES
    ensures ValidField(r) && r.kind == f.kind && r.identifier == f.identifier
    ensures Get(r.props, name) == Some(v)
    ensures forall k :: k != name ==> Get(r.props, k) == Get(f.props, k)
    ensures name in Keys(f.props) ==> Keys(r.props) == Keys(f.props)
  {
    PutGet(f.props, name, v);
    PutKeys(f.props, name, v);
    PutOthers(f.props, name, v);
    f.(props := SetProp(f.props, name, v))
  }

  function Hide(f: Field): (r: Field)
    requires ValidField(f)
    ensures ValidField(r) && Get(r.props, "hidden") == Some(Str("yes"))
  {
    SetField(f, "hidden", Str("yes"))
  }

  /** The link `addLink` appends. */
  function Link(url: string, caption: string, icon: string): Value
  {
    Dict([("url", Str(url)), ("label", Str(caption)), ("icon_url", Str(icon))])
  }

  /** The links of a field, oldest first. */
  function Links(f: Field): seq<Value>
  {
    var found := Get(f.props, "link");
    if found.Some? && found.value.List? then found.value.items else []
  }

  lemma LinksFound(f: Field)
    requires ValidField(f)
    ensures Get(f.props, "link").Some? ==> Get(f.props, "link").value.List?
  {
    var found := Get(f.props, "link");
    if found.Some? {
      var i :| 0 <= i < |f.props| && f.props[i] == ("link", found.value);
    }
  }

  /** `Dimension.addLink`: links accumulate under the repeatable key `link`, in order. */
  function AddLink(f: Field, url: string, caption: string, icon: string): (r: Field)
    requires ValidField(f) && f.kind == Dimension
    ensures ValidField(r) && r.kind == f.kind && r.identifier == f.identifier
    ensures Links(r) == Links(f) + [Link(url, caption, icon)]
    ensures forall k :: k != "link" ==> Get(r.props, k) == Get(f.props, k)
  {
    LinksFound(f);
    var found := Get(f.props, "link");
    var earlier := if found.Some? then found.value.items else [];
    AddRepeatable(f.props, "link", Link(url, caption, icon), earlier);
    f.(props := SetProp(f.props, "link", Link(url, caption, icon)))
  }

  // ------------------------------------------------------------------ tags

  /** `list.remove(x)`: drop the first occurrence. */
  function RemoveFirst(xs: seq<Value>, x: Value): (r: seq<Value>)
    requires x in xs
    ensures |r| == |xs| - 1
    ensures multiset(r) == multiset(xs) - multiset{x}
  {
    if xs[0] == x then
      assert xs == [x] + xs[1..];
      xs[1..]
    else
      assert xs == [xs[0]] + xs[1..];
      [xs[0]] + RemoveFirst(xs[1..], x)
  }

  lemma {:induction false} RemoveFirstLast(xs: seq<Value>, x: Value)
    requires x !in xs
    ensures RemoveFirst(xs + [x], x) == xs
  {
    if xs != [] {
      assert (xs + [x])[1..] == xs[1..] + [x];
      RemoveFirstLast(xs[1..], x);
    }
  }

  /**
   * `addTag`: with no `tags` yet, set `tags` to the one tag; with a list,
   * append the tag unless present. A string or any other value under `tags`
   * cannot be iterated, and a dictionary cannot be appended to.
   */
  function AddTag(f: Field, t: string): (r: Result<Field>)
    requires ValidField(f)
    ensures r.Ok? ==> ValidField(r.value) && r.value.kind == f.kind && r.value.identifier == f.identifier
    ensures r.Ok? <==> Get(f.props, "tags").None? || Get(f.props, "tags").value.List?
                       || (Get(f.props, "tags").value.Dict? && t in Keys(Get(f.props, "tags").value.entries))
    ensures r.Err? ==> r.error == (if Get(f.props, "tags").Some? && Get(f.props, "tags").value.Dict? then AttributeError else TypeError)
    ensures r.Ok? ==> forall k :: k != "tags" ==> Get(r.value.props, k) == Get(f.props, k)
  {
    var found := Get(f.props, "tags");
    if found.None? then Ok(SetField(f, "tags", List([Str(t)])))
    else match found.value
      case List(items) => if Str(t) in items then Ok(f) else Ok(SetField(f, "tags", List(items + [Str(t)])))
      case Dict(e) => if t in Keys(e) then Ok(f) else Err(AttributeError)
      case _ => Err(TypeError)
  }

  /**
   * `removeTag`: remove the first occurrence from a list of tags; an absent
   * tag is a `ValueError`, and a string or dictionary has nothing to remove from.
   */
  function RemoveTag(f: Field, t: string): (r: Result<Field>)
    requires ValidField(f)
    ensures r.Ok? ==> ValidField(r.value) && r.value.kind == f.kind && r.value.identifier == f.identifier
    ensures Get(f.props, "tags").None? ==> r == Ok(f)
    ensures r.Ok? && Get(f.props, "tags").Some? ==>
              Get(f.props, "tags").value.List? && Str(t) in Get(f.props, "tags").value.items &&
              Get(r.value.props, "tags") == Some(List(RemoveFirst(Get(f.props, "tags").value.items, Str(t))))
    ensures r.Ok? ==> forall k :: k != "tags" ==> Get(r.value.props, k) == Get(f.props, k)
  {
    var found := Get(f.props, "tags");
    if found.None? then Ok(f)
    else match found.value
      case List(items) =>
        if Str(t) in items then Ok(SetField(f, "tags", List(RemoveFirst(items, Str(t))))) else Err(ValueError)
      case Str(_) => Err(AttributeError)
      case Dict(_) => Err(AttributeError)
      case Other => Err(TypeError)
  }

  /** The tags of a field, when they are a list. */
  function Tags(f: Field): seq<Value>
  {
    var found := Get(f.props, "tags");
    if found.Some? && found.value.List? then found.value.items else []
  }

  /** After `addTag` the tag is present exactly once more than it was absent, and adding it again changes nothing. */
  lemma AddTagEffect(f: Field, t: string)
    requires ValidField(f) && AddTag(f, t).Ok?
    requires Get(f.props, "tags").None? || Get(f.props, "tags").value.List?
    ensures Str(t) in Tags(AddTag(f, t).value)
    ensures Str(t) in Tags(f) ==> AddTag(f, t) == Ok(f)
    ensures Str(t) !in Tags(f) ==> Tags(AddTag(f, t).value) == Tags(f) + [Str(t)]
    ensures AddTag(AddTag(f, t).value, t) == AddTag(f, t)
  {
    var g := AddTag(f, t).value;
    assert Get(g.props, "tags").Some? && Get(g.props, "tags").value.List?;
  }

  /** Removing a tag just added to a list of tags restores the list. */
  lemma RemoveTagUndoesAdd(f: Field, t: string)
    requires ValidField(f)
    requires Get(f.props, "tags").Some? && Get(f.props, "tags").value.List?
    requires Str(t) !in Get(f.props, "tags").value.items
    ensures AddTag(f, t).Ok? && RemoveTag(AddTag(f, t).value, t).Ok?
    ensures Get(RemoveTag(AddTag(f, t).value, t).value.props, "tags") == Get(f.props, "tags")
    ensures forall k :: Get(RemoveTag(AddTag(f, t).value, t).value.props, k) == Get(f.props, k)
  {
    RemoveFirstLast(Get(f.props, "tags").value.items, Str(t));
  }

  // -------------------------------------------------------------- rendering

  /** `str(field)`: the field's template with its properties, tidied. */
  function RenderField(f: Field): Result<string>
  {
    RenderEntity(KindToken(f.kind), f.message, f.identifier, f.props)
  }
}

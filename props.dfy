/**
 * A single LookML property (`Property`) and a collection of properties
 * (`Properties`): how values are added, how a collection is expanded into
 * properties, and how both are rendered back to LookML text.
 */
module Props {
  import opened Results
  import opened ODict
  import opened Values
  import opened Config
  import opened Text

  // ------------------------------------------------------------ name tables

  /** Names whose value becomes a collection tagged with the name itself. */
  const TAGGED_NAMES: set<string> :=
    {"links", "filters", "tags", "suggestions", "actions", "sets", "options", "form_params",
     "access_grants", "params", "allowed_values", "named_value_formats", "datagroups",
     "map_layers", "columns", "derived_columns", "explore_source", "includes", "access_filters"}

  /** Names rendered as their value alone (the value's collection prints its own keys). */
  const SIMPLE_NAMES: set<string> :=
    {"links", "filters", "actions", "options", "form_params", "sets", "access_grants", "params",
     "allowed_values", "named_value_formats", "datagroups", "map_layers", "derived_columns",
     "columns", "access_filters"}

  /** `lkml.keys.EXPR_BLOCK_KEYS`: values terminated by ` ;;`. */
  const EXPR_BLOCK_KEYS: set<string> :=
    {"expression_custom_filter", "expression", "html", "sql_trigger_value", "sql_table_name",
     "sql_distinct_key", "sql_start", "sql_always_having", "sql_always_where", "sql_trigger",
     "sql_foreign_key", "sql_where", "sql_end", "sql_create", "sql_latitude", "sql_longitude",
     "sql_step", "sql_on", "sql"}

  /** `lkml.keys.QUOTED_LITERAL_KEYS`: values written between double quotes. */
  const QUOTED_LITERAL_KEYS: set<string> :=
    {"label", "view_label", "group_label", "group_item_label", "suggest_persist_for",
     "default_value", "direction", "value_format", "name", "url", "icon_url", "form_url",
     "default", "tags", "value", "description", "sortkeys", "indexes", "partition_keys",
     "connection", "include", "max_cache_age", "allowed_values", "timezone", "persist_for",
     "cluster_keys", "distribution", "extents_json_url", "feature_key", "file", "property_key",
     "property_label_key", "else"}

  /** Plural tags whose elements are printed one per line after the singular key. */
  const UNNAMED_PLURALS: set<string> :=
    {"filters", "links", "actions", "options", "form_params", "params", "access_filters"}

  /** Plural tags whose elements are dictionaries carrying their own `name`. */
  const NAMED_PLURALS: set<string> :=
    {"access_grants", "datagroups", "map_layers", "named_value_formats", "sets", "columns",
     "derived_columns", "explore_source"}

  /** List tags whose members are printed as quoted strings, one per line. */
  const QUOTED_LISTS: set<string> := {"tags", "suggestions"}

  /** What `name in ('tags')` accepts: the parenthesised string is no tuple, so every substring of it. */
  const TAGS_SUBSTRINGS: set<string> :=
    {"", "t", "a", "g", "s", "ta", "ag", "gs", "tag", "ags", "tags"}

  // --------------------------------------------------------------- Property

  /** What a property holds: a plain string, or a collection with its plural tag. */
  datatype PropValue =
    | Plain(text: string)
    | Coll(schema: Value, tag: Option<string>)

  datatype Property = Property(name: string, value: PropValue)

  /**
   * `Property(name, value)`: a string is stored as it is; a tagged name gets a
   * collection tagged with that name (whose constructor iterates the value,
   * so a non-iterable value fails there); any other list or dictionary gets an
   * untagged collection; everything else is rejected.
   */
  function MakeProperty(name: string, v: Value): (r: Result<Property>)
    ensures r.Ok? <==> v.Str? || v.List? || v.Dict?
    ensures r.Err? ==> r.error == (if name in TAGGED_NAMES then TypeError else InvalidValue)
    ensures r.Ok? ==> r.value.name == name
    ensures v.Str? ==> r == Ok(Property(name, Plain(v.s)))
    ensures !v.Str? && r.Ok? ==> r.value.value.Coll? && r.value.value.schema == v
    ensures !v.Str? && r.Ok? ==> (r.value.value.tag == if name in TAGGED_NAMES then Some(name) else None)
  {
    if v.Str? then Ok(Property(name, Plain(v.s)))
    else if name in TAGGED_NAMES then
      if v.Other? then Err(TypeError) else Ok(Property(name, Coll(v, Some(name))))
    else if v.Dict? || v.List? then Ok(Property(name, Coll(v, None)))
    else Err(InvalidValue)
  }

  /** The textual forms `Property.__str__` chooses between. */
  datatype Shape =
    | SimpleShape        // the value alone
    | ExploreSourceShape // `explore_source: <name> { ... }`
    | DefaultShape       // `name: v`
    | ExprBlockShape     // `name: v ;;`
    | QuotedShape        // `name: "v"`
    | BracketShape       // `name: [v]` from the joined list
    | IncludeShape       // `include: "v"`
    | ListMemberShape    // `v,` for a string, the value alone otherwise
    | FieldShape         // four spaces, then `name: v`

  /** The precedence chain of `Property.__str__`; it looks at the name only. */
  function ShapeOf(name: string): Shape
  {
    if name in SIMPLE_NAMES then SimpleShape
    else if name == "explore_source" then ExploreSourceShape
    else if name in TAGS_SUBSTRINGS then DefaultShape
    else if name in EXPR_BLOCK_KEYS then ExprBlockShape
    else if name in QUOTED_LITERAL_KEYS then QuotedShape
    else if name == "extends" || name == "alias" then BracketShape
    else if name == "includes" then IncludeShape
    else if name in MULTIVALUE_PROPERTIES then DefaultShape
    else if name == "list_member" then ListMemberShape
    else if name == "list_member_quoted" then SimpleShape
    else if name == "field" then FieldShape
    else DefaultShape
  }

  /** Height of what a property value may render recursively. */
  function Weight(v: PropValue): nat
  {
    match v
    case Plain(_) => 0
    case Coll(schema, _) => Height(schema)
  }

  /** `str(self.value)`. */
  function RenderValue(v: PropValue): Result<string>
    decreases Weight(v), 2
  {
    match v
    case Plain(s) => Ok(s)
    case Coll(schema, tag) => RenderProperties(schema, tag)
  }

  /** `''.join(self.value.schema)`. */
  function JoinSchema(schema: Value): Result<string>
  {
    match schema
    case Str(s) => Ok(s)
    case Other => Err(TypeError)
    case Dict(entries) => Ok(Concat(Keys(entries)))
    case List(items) =>
      if forall i :: 0 <= i < |items| ==> items[i].Str?
      then Ok(Concat(seq(|items|, i requires 0 <= i < |items| => items[i].s)))
      else Err(TypeError)
  }

  /** `Property.__str__`. */
  function RenderProperty(p: Property): Result<string>
    decreases Weight(p.value), 3
  {
    match ShapeOf(p.name)
    case SimpleShape => RenderValue(p.value)
    case ExploreSourceShape =>
      (match p.value
       case Plain(_) => Err(AttributeError)
       case Coll(schema, tag) =>
         match schema
         case List(_) => Err(TypeError)
         case Str(_) => Err(AttributeError)
         case Other => Err(AttributeError)
         case Dict(e) =>
           match Get(e, "name")
           case None => Err(KeyError)
           case Some(n) =>
             if !n.Str? then Err(TypeError)
             else
               HeightSubDict(Pop(e, "name"), e);
               var body :- RenderProperties(Dict(Pop(e, "name")), tag);
               Ok(p.name + ": " + n.s + " " + body))
    case DefaultShape =>
      var t :- RenderValue(p.value);
      Ok(p.name + ": " + t)
    case ExprBlockShape =>
      var t :- RenderValue(p.value);
      Ok(p.name + ": " + t + " ;;")
    case QuotedShape =>
      var t :- RenderValue(p.value);
      Ok(p.name + ": \"" + t + "\"")
    case BracketShape =>
      (match p.value
       case Plain(_) => Err(AttributeError)
       case Coll(schema, _) =>
         var j :- JoinSchema(schema);
         Ok(p.name + ": [" + j + "]"))
    case IncludeShape =>
      var t :- RenderValue(p.value);
      Ok("include: \"" + t + "\"")
    case ListMemberShape =>
      (match p.value
       case Plain(s) => Ok(s + ",")
       case Coll(_, _) => RenderValue(p.value))
    case FieldShape =>
      var t :- RenderValue(p.value);
      Ok("    " + p.name + ": " + t)
  }

  // ------------------------------------------------------------- Properties

  /** `getProperties` as a list of (name, raw value), and whether the generator then raises. */
  datatype Expansion = Expansion(pairs: seq<(string, Value)>, failed: bool)

  /** `[(k, x) for x in xs]`. */
  function Tagged(k: string, xs: seq<Value>): (r: seq<(string, Value)>)
    ensures |r| == |xs|
    ensures forall i :: 0 <= i < |xs| ==> r[i] == (k, xs[i])
  {
    if xs == [] then [] else [(k, xs[0])] + Tagged(k, xs[1..])
  }

  /** Iterating a repeatable key's value: a list gives its items, a string its characters, a dictionary its keys. */
  function Occurrences(v: Value): Option<seq<Value>>
  {
    match v
    case List(items) => Some(items)
    case Str(s) => Some(seq(|s|, i requires 0 <= i < |s| => Str([s[i]])))
    case Dict(e) => Some(seq(|e|, i requires 0 <= i < |e| => Str(e[i].0)))
    case Other => None
  }

  /** The properties one dictionary entry yields. */
  function ExpandEntry(k: string, v: Value): Expansion
  {
    if k in NONUNIQUE_PROPERTIES then
      match Occurrences(v)
      case None => Expansion([], true)
      case Some(xs) => Expansion(Tagged(k, xs), false)
    else Expansion([(k, v)], false)
  }

  function ExpandEntries(e: Pairs<Value>): Expansion
  {
    if e == [] then Expansion([], false)
    else
      var x := ExpandEntry(e[0].0, e[0].1);
      if x.failed then x
      else
        var y := ExpandEntries(e[1..]);
        Expansion(x.pairs + y.pairs, y.failed)
  }

  /** The name every member of a list collection is given. */
  function MemberName(tag: Option<string>): string
  {
    if tag.Some? && tag.value in {"suggestions", "tags", "allowed_values"} then "list_member_quoted"
    else "list_member"
  }

  /** `Properties.getProperties`: the (name, value) pairs the generator yields. */
  function GetProperties(schema: Value, tag: Option<string>): (r: Expansion)
    ensures forall p :: p in r.pairs ==> Height(p.1) < Height(schema)
  {
    match schema
    case Dict(e) => ExpandLower(e); ExpandEntries(e)
    case List(items) =>
      assert forall x :: x in items ==> Height(x) < Height(schema) by {
        forall x | x in items { HeightItem(items, x); }
      }
      Expansion(Tagged(MemberName(tag), items), false)
    case _ => Expansion([], false)
  }

  lemma {:induction false} ExpandLower(e: Pairs<Value>)
    ensures forall p :: p in ExpandEntries(e).pairs ==> Height(p.1) < Height(Dict(e))
  {
    if e != [] {
      ExpandLower(e[1..]);
      HeightSubDict(e[1..], e);
      HeightEntry(e, e[0]);
      var v := e[0].1;
      if e[0].0 in NONUNIQUE_PROPERTIES && v.List? {
        forall x | x in v.items ensures Height(x) < Height(Dict(e)) {
          HeightItem(v.items, x);
        }
      }
    }
  }

  /** Renders the pairs in order, `str(Property(k, v))` each; the first failure wins. */
  function RenderPairs(ps: seq<(string, Value)>, ghost bound: nat): (r: Result<seq<string>>)
    requires forall p :: p in ps ==> Height(p.1) < bound
    ensures r.Ok? ==> |r.value| == |ps|
    decreases bound, 0, |ps|
  {
    if ps == [] then Ok([])
    else
      var p :- MakeProperty(ps[0].0, ps[0].1);
      assert ps[0] in ps && Weight(p.value) <= Height(ps[0].1);
      var s :- RenderProperty(p);
      var rest :- RenderPairs(ps[1..], bound);
      Ok([s] + rest)
  }

  function RenderExpansion(x: Expansion, ghost bound: nat): (r: Result<seq<string>>)
    requires forall p :: p in x.pairs ==> Height(p.1) < bound
    ensures r.Ok? ==> |r.value| == |x.pairs| && !x.failed
    decreases bound, 0, |x.pairs| + 1
  {
    var rs :- RenderPairs(x.pairs, bound);
    if x.failed then Err(TypeError) else Ok(rs)
  }

  /** `tag[:-1]`. */
  function Singular(tag: string): string
  {
    if tag == [] then [] else tag[..|tag| - 1]
  }

  /** `'"' + s + '",'` for each rendered member. */
  function QuoteEach(rs: seq<string>): (r: seq<string>)
    ensures |r| == |rs|
    ensures forall i :: 0 <= i < |rs| ==> r[i] == "\"" + rs[i] + "\","
  {
    if rs == [] then [] else ["\"" + rs[0] + "\","] + QuoteEach(rs[1..])
  }

  /** The elements of a named plural collection: `singular: <name> { ... }` each. */
  function RenderNamedItems(items: seq<Value>, singular: string, ghost bound: nat): Result<string>
    requires forall x :: x in items ==> Height(x) < bound
    decreases bound, 0, |items|
  {
    if items == [] then Ok("")
    else
      match items[0]
      case Str(_) => Err(AttributeError)
      case Other => Err(AttributeError)
      case List(_) => Err(TypeError)
      case Dict(e) =>
        match Get(e, "name")
        case None => Err(KeyError)
        case Some(n) =>
          if !n.Str? then Err(TypeError)
          else
            HeightSubDict(Pop(e, "name"), e);
            var body :- RenderProperty(Property("list_member", Coll(Dict(Pop(e, "name")), None)));
            var rest :- RenderNamedItems(items[1..], singular, bound);
            Ok(NEWLINEINDENT + INDENT + singular + ": " + n.s + " " + body + rest)
  }

  /**
   * `Properties.__str__`. Python returns `None` when no branch applies, and
   * every caller then fails in `str()`: that outcome is `Err(TypeError)`.
   */
  function RenderProperties(schema: Value, tag: Option<string>): Result<string>
    decreases Height(schema), 1
  {
    var x := GetProperties(schema, tag);
    if schema.Dict? then
      var rs :- RenderExpansion(x, Height(schema));
      Ok(ArrayTemplate(Stringify(rs, NEWLINEINDENT, false, false)))
    else if schema.List? && tag.None? then
      var rs :- RenderExpansion(x, Height(schema));
      Ok(ListTemplate(Stringify(rs, " ", false, false)))
    else if schema.List? && tag.Some? && tag.value in QUOTED_LISTS then
      var rs :- RenderExpansion(x, Height(schema));
      Ok("[\n    " + Join("\n    ", QuoteEach(rs)) + "\n    ]")
    else if tag.Some? && tag.value in UNNAMED_PLURALS then
      var singular := NEWLINE + (if tag.value == "filters" then tag.value else Singular(tag.value)) + ": ";
      var rs :- RenderExpansion(x, Height(schema));
      Ok(singular + Join(singular, rs))
    else if tag.Some? && tag.value in NAMED_PLURALS then
      match schema
      case List(items) =>
        assert forall v :: v in items ==> Height(v) < Height(schema) by {
          forall v | v in items { HeightItem(items, v); }
        }
        RenderNamedItems(items, Singular(tag.value), Height(schema))
      case Str(s) => if s == [] then Ok("") else Err(AttributeError)
      case _ => Err(TypeError)
    else if tag == Some("allowed_values") then
      match schema
      case List(items) =>
        if items == [] then Err(IndexError)
        else if items[0].Dict? then
          var rs :- RenderExpansion(x, Height(schema));
          Ok("allowed_value: " + Join("\n allowed_value: ", rs))
        else if items[0].Str? then
          var rs :- RenderExpansion(x, Height(schema));
          Ok("allowed_values: [\n    " + Join("\n    ", QuoteEach(rs)) + "\n    ]")
        else Err(TypeError)
      case Str(s) => if s == [] then Err(IndexError) else Ok("allowed_values: [\n    \n    ]")
      case _ => Err(TypeError)
    else Err(TypeError)
  }

  // ------------------------------------------------------ adding, deleting

  /**
   * `Properties.addProperty` on the stored schema: a repeatable key appends
   * to its list of occurrences, a list collection adds values it does not yet
   * hold, and a dictionary overwrites the key (keeping its position).
   */
  function AddProp(schema: Value, name: string, value: Value): (r: Result<Value>)
    ensures r.Err? ==> r.error == AttributeError
    ensures r.Ok? ==> (r.value.Dict? <==> schema.Dict?)
  {
    if name in NONUNIQUE_PROPERTIES then
      match schema
      case Dict(e) =>
        var index := match Get(e, name) case None => List([]) case Some(x) => x;
        if index.List? then Ok(Dict(Put(e, name, List(index.items + [value]))))
        else Err(AttributeError)   // `str.append`, `dict.append`
      case _ => Err(AttributeError)   // `list.get`, `str.get`
    else
      match schema
      case List(items) => if value in items then Ok(schema) else Ok(List(items + [value]))
      case Dict(e) => Ok(Dict(Put(e, name, value)))
      case _ => Err(AttributeError)
  }

  /** `Properties.__delete__` (the dictionary pop; the list branch passes `remove` two arguments). */
  function DeleteProp(schema: Value, name: string): Result<Value>
  {
    match schema
    case Dict(e) => Ok(Dict(Pop(e, name)))
    case List(_) => Err(TypeError)
    case _ => Ok(schema)
  }

  /** A repeatable key collects every value added under it, in order, and no other key changes. */
  lemma AddRepeatable(e: Pairs<Value>, name: string, value: Value, earlier: seq<Value>)
    requires name in NONUNIQUE_PROPERTIES
    requires Get(e, name) == Some(List(earlier)) || (Get(e, name).None? && earlier == [])
    ensures AddProp(Dict(e), name, value).Ok?
    ensures AddProp(Dict(e), name, value).value.Dict?
    ensures Get(AddProp(Dict(e), name, value).value.entries, name) == Some(List(earlier + [value]))
    ensures forall k :: k != name ==> Get(AddProp(Dict(e), name, value).value.entries, k) == Get(e, k)
  {
    var v := List(earlier + [value]);
    PutGet(e, name, v);
    forall k | k != name ensures Get(Put(e, name, v), k) == Get(e, k) {
      PutOther(e, name, v, k);
    }
  }

  /** Adding under a repeatable key fails exactly on a non-dictionary or a non-list earlier value. */
  lemma AddRepeatableFails(schema: Value, name: string, value: Value)
    requires name in NONUNIQUE_PROPERTIES
    ensures AddProp(schema, name, value).Err? <==>
              !schema.Dict? || (Get(schema.entries, name).Some? && !Get(schema.entries, name).value.List?)
  {
  }

  /** Any other key of a dictionary is overwritten in place or added last; the rest is unchanged. */
  lemma AddOverwrites(e: Pairs<Value>, name: string, value: Value)
    requires name !in NONUNIQUE_PROPERTIES
    ensures AddProp(Dict(e), name, value).Ok?
    ensures AddProp(Dict(e), name, value).value.Dict?
    ensures Get(AddProp(Dict(e), name, value).value.entries, name) == Some(value)
    ensures forall k :: k != name ==> Get(AddProp(Dict(e), name, value).value.entries, k) == Get(e, k)
    ensures name in Keys(e) ==> Keys(AddProp(Dict(e), name, value).value.entries) == Keys(e)
    ensures name !in Keys(e) ==> Keys(AddProp(Dict(e), name, value).value.entries) == Keys(e) + [name]
  {
    PutGet(e, name, value);
    PutKeys(e, name, value);
    forall k | k != name ensures Get(Put(e, name, value), k) == Get(e, k) {
      PutOther(e, name, value, k);
    }
  }

  /** Adding keeps the dictionary's keys unique. */
  lemma AddKeepsUnique(e: Pairs<Value>, name: string, value: Value)
    requires UniqueKeys(e)
    requires AddProp(Dict(e), name, value).Ok?
    ensures UniqueKeys(AddProp(Dict(e), name, value).value.entries)
  {
    if name in NONUNIQUE_PROPERTIES {
      var index := match Get(e, name) case None => List([]) case Some(x) => x;
      PutUnique(e, name, List(index.items + [value]));
    } else {
      PutUnique(e, name, value);
    }
  }

  ghost predicate NoDuplicates(xs: seq<Value>)
  {
    forall i, j :: 0 <= i < j < |xs| ==> xs[i] != xs[j]
  }

  /**
   * On a list collection a value is added at the end unless it is already
   * there: the earlier members stay, the value is a member afterwards and no
   * member appears twice.
   */
  lemma AddToList(items: seq<Value>, name: string, value: Value)
    requires name !in NONUNIQUE_PROPERTIES
    ensures AddProp(List(items), name, value).Ok?
    ensures AddProp(List(items), name, value).value.List?
    ensures var r := AddProp(List(items), name, value).value.items;
              value in r && items <= r && |r| <= |items| + 1
    ensures NoDuplicates(items) ==> NoDuplicates(AddProp(List(items), name, value).value.items)
  {
    if value !in items {
      var r := items + [value];
      assert r[|items|] == value;
      forall i, j | 0 <= i < j < |r| && NoDuplicates(items) ensures r[i] != r[j] {
        if j == |items| {
          assert r[i] == items[i];
        }
      }
    }
  }

  /** Adding the same value to a list collection twice is the same as adding it once. */
  lemma AddToListIdempotent(items: seq<Value>, name: string, value: Value)
    requires name !in NONUNIQUE_PROPERTIES
    ensures AddProp(AddProp(List(items), name, value).value, name, value) == AddProp(List(items), name, value)
  {
    AddToList(items, name, value);
  }

  /** Deleting removes the key and no other. */
  lemma DeleteRemoves(e: Pairs<Value>, name: string)
    ensures DeleteProp(Dict(e), name).Ok?
    ensures Get(DeleteProp(Dict(e), name).value.entries, name).None?
    ensures forall k :: k != name ==> Get(DeleteProp(Dict(e), name).value.entries, k) == Get(e, k)
  {
    forall k | k != name ensures Get(Pop(e, name), k) == Get(e, k) {
      PopGet(e, name, k);
    }
    PopGet(e, name, name);
  }

  /** Deleting a key that was just added undoes the addition. */
  lemma DeleteUndoesAdd(e: Pairs<Value>, name: string, value: Value)
    requires name !in Keys(e)
    requires name !in NONUNIQUE_PROPERTIES
    ensures DeleteProp(AddProp(Dict(e), name, value).value, name) == Ok(Dict(e))
  {
    PutAbsent(e, name, value);
    PopLast(e, name, value);
  }

  // ----------------------------------------------- expansion round trip

  /** Adds the pairs one by one with `addProperty`. */
  function Rebuild(acc: Value, ps: seq<(string, Value)>): Result<Value>
    decreases |ps|
  {
    if ps == [] then Ok(acc)
    else
      var a :- AddProp(acc, ps[0].0, ps[0].1);
      Rebuild(a, ps[1..])
  }

  /**
   * The shape the LookML parser produces: unique keys, and every repeatable
   * key holding a non-empty list of its occurrences.
   */
  ghost predicate Regular(e: Pairs<Value>)
  {
    UniqueKeys(e) &&
    forall i :: 0 <= i < |e| && e[i].0 in NONUNIQUE_PROPERTIES ==> e[i].1.List? && e[i].1.items != []
  }

  /**
   * An entity's own dictionary stays regular under `addProperty`, which
   * therefore never fails on it.
   */
  lemma AddKeepsRegular(e: Pairs<Value>, name: string, value: Value)
    requires Regular(e)
    ensures AddProp(Dict(e), name, value).Ok?
    ensures Regular(AddProp(Dict(e), name, value).value.entries)
  {
    if name in NONUNIQUE_PROPERTIES {
      var found := Get(e, name);
      if found.Some? {
        var i :| 0 <= i < |e| && e[i] == (name, found.value);
      }
    }
    AddKeepsUnique(e, name, value);
    var r := AddProp(Dict(e), name, value).value.entries;
    forall i | 0 <= i < |r| && r[i].0 in NONUNIQUE_PROPERTIES ensures r[i].1.List? && r[i].1.items != [] {
      assert r[i] in r;
      if r[i] in e {
        var j :| 0 <= j < |e| && e[j] == r[i];
      }
    }
  }

  /** Popping a key keeps a dictionary regular. */
  lemma DeleteKeepsRegular(e: Pairs<Value>, name: string)
    requires Regular(e)
    ensures Regular(Pop(e, name))
  {
    PopUnique(e, name);
    var r := Pop(e, name);
    forall i | 0 <= i < |r| && r[i].0 in NONUNIQUE_PROPERTIES ensures r[i].1.List? && r[i].1.items != [] {
      assert r[i] in r;
      var j :| 0 <= j < |e| && e[j] == r[i];
    }
  }

  lemma {:induction false} RebuildAppend(acc: Value, xs: seq<(string, Value)>, ys: seq<(string, Value)>)
    requires Rebuild(acc, xs).Ok?
    ensures Rebuild(acc, xs + ys) == Rebuild(Rebuild(acc, xs).value, ys)
    decreases |xs|
  {
    if xs == [] {
      assert xs + ys == ys;
    } else {
      assert (xs + ys)[1..] == xs[1..] + ys;
      RebuildAppend(AddProp(acc, xs[0].0, xs[0].1).value, xs[1..], ys);
    }
  }

  lemma AddOccurrence(d: Pairs<Value>, k: string, pre: seq<Value>, x: Value)
    requires k in NONUNIQUE_PROPERTIES && k !in Keys(d)
    ensures AddProp(Dict(d + [(k, List(pre))]), k, x) == Ok(Dict(d + [(k, List(pre + [x]))]))
  {
    GetLast(d, k, List(pre));
    PutLast(d, k, List(pre), List(pre + [x]));
  }

  lemma {:induction false} RebuildOccurrences(d: Pairs<Value>, k: string, pre: seq<Value>, xs: seq<Value>)
    requires k in NONUNIQUE_PROPERTIES && k !in Keys(d)
    ensures Rebuild(Dict(d + [(k, List(pre))]), Tagged(k, xs)) == Ok(Dict(d + [(k, List(pre + xs))]))
    decreases |xs|
  {
    if xs == [] {
      assert pre + xs == pre;
    } else {
      var acc := Dict(d + [(k, List(pre))]);
      var next := Dict(d + [(k, List(pre + [xs[0]]))]);
      AddOccurrence(d, k, pre, xs[0]);
      var ps := Tagged(k, xs);
      assert ps[0] == (k, xs[0]) && ps[1..] == Tagged(k, xs[1..]);
      assert Rebuild(acc, ps) == Rebuild(next, Tagged(k, xs[1..]));
      RebuildOccurrences(d, k, pre + [xs[0]], xs[1..]);
      assert pre + [xs[0]] + xs[1..] == pre + xs;
    }
  }

  /** One entry's expansion, added back to a dictionary without that key, appends the entry. */
  lemma RebuildEntry(d: Pairs<Value>, k: string, v: Value)
    requires k !in Keys(d)
    requires k in NONUNIQUE_PROPERTIES ==> v.List? && v.items != []
    ensures !ExpandEntry(k, v).failed
    ensures Rebuild(Dict(d), ExpandEntry(k, v).pairs) == Ok(Dict(d + [(k, v)]))
  {
    if k in NONUNIQUE_PROPERTIES {
      var items := v.items;
      GetMisses(d, k);
      PutAbsent(d, k, List([items[0]]));
      assert [] + [items[0]] == [items[0]];
      RebuildOccurrences(d, k, [items[0]], items[1..]);
      assert [items[0]] + items[1..] == items;
    } else {
      PutAbsent(d, k, v);
    }
  }

  lemma {:induction false} RebuildFrom(d: Pairs<Value>, e: Pairs<Value>)
    requires Regular(e) && UniqueKeys(d + e)
    ensures !ExpandEntries(e).failed
    ensures Rebuild(Dict(d), ExpandEntries(e).pairs) == Ok(Dict(d + e))
    decreases |e|
  {
    if e == [] {
      assert d + e == d;
    } else {
      var de := d + e;
      assert de[|d|] == e[0];
      assert e[0].0 !in Keys(d) by {
        forall i | 0 <= i < |d| ensures Keys(d)[i] != e[0].0 {
          assert de[i] == d[i];
        }
      }
      assert e[0].0 in NONUNIQUE_PROPERTIES ==> e[0].1.List? && e[0].1.items != [];
      RebuildEntry(d, e[0].0, e[0].1);
      UniqueTail(e);
      assert Regular(e[1..]) by {
        assert forall i :: 0 <= i < |e[1..]| ==> e[1..][i] == e[i + 1];
      }
      assert (d + [e[0]]) + e[1..] == de;
      RebuildFrom(d + [e[0]], e[1..]);
      RebuildAppend(Dict(d), ExpandEntry(e[0].0, e[0].1).pairs, ExpandEntries(e[1..]).pairs);
    }
  }

  /**
   * `getProperties` loses nothing: adding back every property it yields, one
   * by one with `addProperty`, rebuilds the collection, entry for entry and
   * in the same order.
   */
  lemma ExpansionRoundTrip(e: Pairs<Value>, tag: Option<string>)
    requires Regular(e)
    ensures !GetProperties(Dict(e), tag).failed
    ensures Rebuild(Dict([]), GetProperties(Dict(e), tag).pairs) == Ok(Dict(e))
  {
    assert [] + e == e;
    RebuildFrom([], e);
  }

  // ------------------------------------------------- rendering properties

  lemma PrefixesOf4(s: string, n: string)
    requires |s| == 4
    ensures StartsWith(s, n) <==> n == [] || n == s[..1] || n == s[..2] || n == s[..3] || n == s
  {
    if StartsWith(s, n) {
      assert n == s[..|n|];
    }
  }

  lemma PrefixesOfShort(s: string, n: string)
    requires |s| <= 3
    ensures StartsWith(s, n) <==> n == [] || (|s| >= 1 && n == s[..1]) || (|s| >= 2 && n == s[..2]) || n == s
  {
    if StartsWith(s, n) {
      assert n == s[..|n|];
    }
  }

  /** The set of substrings equals the substring test on "tags". */
  lemma TagsSubstrings(name: string)
    ensures Contains("tags", name) <==> name in TAGS_SUBSTRINGS
  {
    assert "tags"[1..] == "ags" && "ags"[1..] == "gs" && "gs"[1..] == "s" && "s"[1..] == "";
    assert Contains("", name) == StartsWith("", name);
    assert Contains("s", name) == (StartsWith("s", name) || Contains("", name));
    assert Contains("gs", name) == (StartsWith("gs", name) || Contains("s", name));
    assert Contains("ags", name) == (StartsWith("ags", name) || Contains("gs", name));
    assert Contains("tags", name) == (StartsWith("tags", name) || Contains("ags", name));
    PrefixesOf4("tags", name);
    PrefixesOfShort("ags", name);
    PrefixesOfShort("gs", name);
    PrefixesOfShort("s", name);
    PrefixesOfShort("", name);
    assert "tags"[..1] == "t" && "tags"[..2] == "ta" && "tags"[..3] == "tag";
    assert "ags"[..1] == "a" && "ags"[..2] == "ag" && "gs"[..1] == "g" && "gs"[..2] == "gs";
    assert "s"[..1] == "s" && "" == [];
  }

  /** Expression-block keys come before every later rule. */
  lemma ExprBlockShapes(name: string)
    requires name in EXPR_BLOCK_KEYS
    ensures ShapeOf(name) == ExprBlockShape
  {
  }

  lemma QuotedShapes1(name: string)
    requires name in {"label", "view_label", "group_label", "group_item_label", "suggest_persist_for", "default_value", "direction", "value_format"}
    ensures ShapeOf(name) == QuotedShape
  {
  }

  lemma QuotedShapes2(name: string)
    requires name in {"name", "url", "icon_url", "form_url", "default", "value", "description", "sortkeys"}
    ensures ShapeOf(name) == QuotedShape
  {
  }

  lemma QuotedShapes3(name: string)
    requires name in {"indexes", "partition_keys", "connection", "include", "max_cache_age", "timezone", "persist_for", "cluster_keys"}
    ensures ShapeOf(name) == QuotedShape
  {
  }

  lemma QuotedShapes4(name: string)
    requires name in {"distribution", "extents_json_url", "feature_key", "file", "property_key", "property_label_key", "else"}
    ensures ShapeOf(name) == QuotedShape
  {
  }

  /** Quoted keys are quoted, except `tags` (the substring test) and `allowed_values` (a plural). */
  lemma QuotedShapes(name: string)
    requires name in QUOTED_LITERAL_KEYS && name != "tags" && name != "allowed_values"
    ensures ShapeOf(name) == QuotedShape
  {
    if name in {"label", "view_label", "group_label", "group_item_label", "suggest_persist_for", "default_value", "direction", "value_format"} { QuotedShapes1(name); }
    if name in {"name", "url", "icon_url", "form_url", "default", "value", "description", "sortkeys"} { QuotedShapes2(name); }
    if name in {"indexes", "partition_keys", "connection", "include", "max_cache_age", "timezone", "persist_for", "cluster_keys"} { QuotedShapes3(name); }
    if name in {"distribution", "extents_json_url", "feature_key", "file", "property_key", "property_label_key", "else"} { QuotedShapes4(name); }
  }

  lemma SpecialShapes(name: string)
    ensures name in SIMPLE_NAMES ==> ShapeOf(name) == SimpleShape
    ensures name == "tags" ==> ShapeOf(name) == DefaultShape
    ensures name == "extends" || name == "alias" ==> ShapeOf(name) == BracketShape
    ensures name in MULTIVALUE_PROPERTIES ==> ShapeOf(name) == DefaultShape
    ensures name == "list_member" ==> ShapeOf(name) == ListMemberShape
    ensures name == "list_member_quoted" ==> ShapeOf(name) == SimpleShape
  {
  }

  /** A plain string is wrapped according to the name alone. */
  lemma RenderPlain(name: string, s: string)
    ensures name in EXPR_BLOCK_KEYS ==> RenderProperty(Property(name, Plain(s))) == Ok(name + ": " + s + " ;;")
    ensures name in QUOTED_LITERAL_KEYS && name != "tags" && name != "allowed_values" ==>
              RenderProperty(Property(name, Plain(s))) == Ok(name + ": \"" + s + "\"")
    ensures ShapeOf(name) == DefaultShape ==> RenderProperty(Property(name, Plain(s))) == Ok(name + ": " + s)
    ensures name == "extends" || name == "alias" ==> RenderProperty(Property(name, Plain(s))).Err?
  {
    SpecialShapes(name);
    if name in EXPR_BLOCK_KEYS { ExprBlockShapes(name); }
    if name in QUOTED_LITERAL_KEYS && name != "tags" && name != "allowed_values" { QuotedShapes(name); }
  }

  /**
   * The shape never depends on what kind of value the property holds: two
   * properties of one name whose values print alike print alike.
   */
  lemma ShapeIgnoresValueKind(p: Property, q: Property)
    requires p.name == q.name && RenderValue(p.value) == RenderValue(q.value)
    requires ShapeOf(p.name) != ExploreSourceShape && ShapeOf(p.name) != BracketShape
    requires ShapeOf(p.name) != ListMemberShape
    ensures RenderProperty(p) == RenderProperty(q)
  {
  }

  function Texts(items: seq<Value>): (r: seq<string>)
    requires forall i :: 0 <= i < |items| ==> items[i].Str?
    ensures |r| == |items| && forall i :: 0 <= i < |items| ==> r[i] == items[i].s
  {
    seq(|items|, i requires 0 <= i < |items| => items[i].s)
  }

  /** `extends: [a, b]` read back from LookML prints its parents with nothing between them. */
  lemma BracketsConcatenate(name: string, items: seq<Value>)
    requires name == "extends" || name == "alias"
    requires forall i :: 0 <= i < |items| ==> items[i].Str?
    ensures RenderProperty(Property(name, Coll(List(items), None))) == Ok(name + ": [" + Concat(Texts(items)) + "]")
  {
    SpecialShapes(name);
    assert JoinSchema(List(items)) == Ok(Concat(Texts(items)));
  }

  lemma {:induction false} RenderStrMembers(name: string, items: seq<Value>, bound: nat)
    requires forall i :: 0 <= i < |items| ==> items[i].Str?
    requires ShapeOf(name) == SimpleShape && bound > 0
    ensures forall p :: p in Tagged(name, items) ==> Height(p.1) < bound
    ensures RenderPairs(Tagged(name, items), bound) == Ok(Texts(items))
    decreases |items|
  {
    var ps := Tagged(name, items);
    if items != [] {
      assert ps[1..] == Tagged(name, items[1..]);
      RenderStrMembers(name, items[1..], bound);
      assert ps == [ps[0]] + ps[1..];
      var p := Property(name, Plain(items[0].s));
      assert MakeProperty(ps[0].0, ps[0].1) == Ok(p);
      assert RenderProperty(p) == Ok(items[0].s);
      TextsCons(items);
    }
  }

  lemma TextsCons(items: seq<Value>)
    requires items != [] && forall i :: 0 <= i < |items| ==> items[i].Str?
    ensures Texts(items) == [items[0].s] + Texts(items[1..])
  {
    var a, b := Texts(items), [items[0].s] + Texts(items[1..]);
    assert |a| == |b|;
    assert forall i :: 0 <= i < |a| ==> a[i] == b[i];
  }

  /** A `tags` or `suggestions` list prints each member quoted and followed by a comma, one per line. */
  lemma QuotedListRendering(items: seq<Value>, tag: string)
    requires tag in QUOTED_LISTS
    requires forall i :: 0 <= i < |items| ==> items[i].Str?
    ensures RenderProperties(List(items), Some(tag))
              == Ok("[\n    " + Join("\n    ", QuoteEach(Texts(items))) + "\n    ]")
  {
    SpecialShapes("list_member_quoted");
    RenderStrMembers("list_member_quoted", items, Height(List(items)) + 1);
    RenderStrMembers("list_member_quoted", items, Height(List(items)));
  }

  /** An element of a named plural collection: a dictionary with a string `name`. */
  predicate NamedElement(x: Value)
  {
    x.Dict? && Get(x.entries, "name").Some? && Get(x.entries, "name").value.Str?
  }

  lemma {:induction false} NamedItemsNeedNames(items: seq<Value>, singular: string, bound: nat)
    requires forall x :: x in items ==> Height(x) < bound
    ensures RenderNamedItems(items, singular, bound).Ok? ==> forall i :: 0 <= i < |items| ==> NamedElement(items[i])
    decreases |items|
  {
    if items != [] {
      assert forall x :: x in items[1..] ==> x in items;
      NamedItemsNeedNames(items[1..], singular, bound);
      assert forall i :: 1 <= i < |items| ==> items[i] == items[1..][i - 1];
    }
  }

  /** A dictionary prints between braces. */
  lemma DictBraces(d: Pairs<Value>, tag: Option<string>)
    ensures RenderProperties(Dict(d), tag).Ok? ==> RenderProperties(Dict(d), tag).value[..2] == "{ "
  {
  }

  /** An element of a named collection prints as its remaining properties. */
  lemma ListMemberBody(d: Pairs<Value>)
    ensures RenderProperty(Property("list_member", Coll(Dict(d), None))) == RenderProperties(Dict(d), None)
  {
    SpecialShapes("list_member");
  }

  /** The first element of a named collection prints its name, then its body. */
  lemma NamedItemsFirst(items: seq<Value>, singular: string, bound: nat)
    requires forall x :: x in items ==> Height(x) < bound
    requires items != [] && NamedElement(items[0])
    requires RenderNamedItems(items, singular, bound).Ok?
    ensures RenderProperties(Dict(Pop(items[0].entries, "name")), None).Ok?
    ensures StartsWith(RenderNamedItems(items, singular, bound).value,
                       NEWLINEINDENT + INDENT + singular + ": " + Get(items[0].entries, "name").value.s + " "
                       + RenderProperties(Dict(Pop(items[0].entries, "name")), None).value)
  {
    ListMemberBody(Pop(items[0].entries, "name"));
  }

  lemma NamedItemsHeader(items: seq<Value>, singular: string, bound: nat)
    requires forall x :: x in items ==> Height(x) < bound
    requires items != [] && NamedElement(items[0])
    ensures RenderNamedItems(items, singular, bound).Ok? ==>
              StartsWith(RenderNamedItems(items, singular, bound).value,
                         NEWLINEINDENT + INDENT + singular + ": " + Get(items[0].entries, "name").value.s + " { ")
  {
    if RenderNamedItems(items, singular, bound).Ok? {
      NamedItemsFirst(items, singular, bound);
      var d := Pop(items[0].entries, "name");
      DictBraces(d, None);
      var pre := NEWLINEINDENT + INDENT + singular + ": " + Get(items[0].entries, "name").value.s;
      PrefixThrough(RenderNamedItems(items, singular, bound).value, pre, RenderProperties(Dict(d), None).value);
    }
  }

  /** A text that starts with `pre`, a blank and a body opening with `{ ` starts with `pre { `. */
  lemma PrefixThrough(s: string, pre: string, body: string)
    requires StartsWith(s, pre + " " + body) && |body| >= 2 && body[..2] == "{ "
    ensures StartsWith(s, pre + " { ")
  {
    var n := |pre|;
    var whole := pre + " " + body;
    forall k | 0 <= k < n + 3
      ensures s[k] == (pre + " { ")[k]
    {
      assert s[k] == s[..|whole|][k] == whole[k];
      if k == n + 1 || k == n + 2 {
        assert whole[k] == body[..2][k - n - 1];
      }
    }
    assert s[..n + 3] == pre + " { ";
  }

  lemma PluralTablesDisjoint(tag: string)
    requires tag in NAMED_PLURALS
    ensures tag !in QUOTED_LISTS && tag !in UNNAMED_PLURALS
  {
  }

  /** A named plural collection dispatches to its elements. */
  lemma NamedPluralDispatch(items: seq<Value>, tag: string)
    requires tag in NAMED_PLURALS
    ensures forall x :: x in items ==> Height(x) < Height(List(items))
    ensures RenderProperties(List(items), Some(tag)) == RenderNamedItems(items, Singular(tag), Height(List(items)))
  {
    forall v | v in items ensures Height(v) < Height(List(items)) { HeightItem(items, v); }
    PluralTablesDisjoint(tag);
  }

  /**
   * A named plural collection (`sets`, `datagroups`, ...) prints only when
   * every element is a dictionary with a string `name`, and the first
   * element then opens with `singular: <name> { `.
   */
  lemma NamedPluralRendering(items: seq<Value>, tag: string)
    requires tag in NAMED_PLURALS
    ensures RenderProperties(List(items), Some(tag)).Ok? ==>
              forall i :: 0 <= i < |items| ==> NamedElement(items[i])
    ensures RenderProperties(List(items), Some(tag)).Ok? && items != [] && NamedElement(items[0]) ==>
              StartsWith(RenderProperties(List(items), Some(tag)).value,
                         NEWLINEINDENT + INDENT + Singular(tag) + ": " + Get(items[0].entries, "name").value.s + " { ")
  {
    NamedPluralDispatch(items, tag);
    NamedItemsNeedNames(items, Singular(tag), Height(List(items)));
    if items != [] && NamedElement(items[0]) {
      NamedItemsHeader(items, Singular(tag), Height(List(items)));
    }
  }

  // ---------------------------------------------------- the collection object

  /** `Properties`: a dictionary or list of properties and its plural tag. */
  class Properties {
    var schema: Value
    const tag: Option<string>

    constructor (schema: Value, tag: Option<string>)
      requires !schema.Other?
      ensures this.schema == schema && this.tag == tag
    {
      this.schema := schema;
      this.tag := tag;
    }

    /** The constructor iterates the schema, so a non-iterable one is rejected. */
    static method New(schema: Value, tag: Option<string>) returns (r: Result<Properties>)
      ensures r.Ok? <==> !schema.Other?
      ensures r.Err? ==> r.error == TypeError
      ensures r.Ok? ==> fresh(r.value) && r.value.schema == schema && r.value.tag == tag
    {
      if schema.Other? {
        return Err(TypeError);
      }
      var p := new Properties(schema, tag);
      return Ok(p);
    }

    /** `addProperty`, changing the schema in place. */
    method AddProperty(name: string, value: Value) returns (r: Result<()>)
      modifies this
      ensures AddProp(old(schema), name, value).Ok? ==>
                r.Ok? && schema == AddProp(old(schema), name, value).value
      ensures AddProp(old(schema), name, value).Err? ==>
                r == Err(AddProp(old(schema), name, value).error) && schema == old(schema)
    {
      if name in NONUNIQUE_PROPERTIES {
        if !schema.Dict? {
          return Err(AttributeError);
        }
        var found := Get(schema.entries, name);
        var index := if found.None? then List([]) else found.value;
        if !index.List? {
          return Err(AttributeError);
        }
        index := List(index.items + [value]);
        schema := Dict(Put(schema.entries, name, index));
      } else if schema.List? {
        if value !in schema.items {
          schema := List(schema.items + [value]);
        }
      } else if schema.Dict? {
        schema := Dict(Put(schema.entries, name, value));
      } else {
        return Err(AttributeError);
      }
      return Ok(());
    }

    /** `__delete__`: pops the key from a dictionary schema. */
    method Delete(name: string) returns (r: Result<()>)
      modifies this
      ensures DeleteProp(old(schema), name).Ok? ==> r.Ok? && schema == DeleteProp(old(schema), name).value
      ensures DeleteProp(old(schema), name).Err? ==> r.Err? && schema == old(schema)
    {
      match schema
      case Dict(e) =>
        schema := Dict(Pop(e, name));
        r := Ok(());
      case List(_) =>
        r := Err(TypeError);
      case _ =>
        r := Ok(());
    }

    /** `isMember`: a key of a dictionary schema, a member of a list schema. */
    function IsMember(x: Value): (b: bool)
      reads this
      ensures b ==> schema.Dict? || schema.List?
    {
      match schema
      case Dict(e) => x.Str? && x.s in Keys(e)
      case List(items) => x in items
      case _ => false
    }

    /** `str(properties)`; rendering reads the schema and leaves it as it was. */
    function Render(): Result<string>
      reads this
    {
      RenderProperties(schema, tag)
    }
  }

  /** After `addProperty` on a dictionary or a list, the added key or value is a member. */
  lemma AddMakesMember(schema: Value, name: string, value: Value)
    requires schema.Dict? || schema.List?
    requires AddProp(schema, name, value).Ok?
    ensures schema.Dict? ==> name in Keys(AddProp(schema, name, value).value.entries)
    ensures schema.List? && name !in NONUNIQUE_PROPERTIES ==> value in AddProp(schema, name, value).value.items
  {
    if schema.Dict? {
      var e := schema.entries;
      var v := if name in NONUNIQUE_PROPERTIES
               then List((match Get(e, name) case None => List([]) case Some(x) => x).items + [value])
               else value;
      PutKeys(e, name, v);
      assert Keys(e + [(name, v)])[|e|] == name;
    }
  }
}

/**
 * `Join` and `Explore` of lookml/lookml.py. A join is an entity whose
 * properties its setters update in place, two of them guarded by the
 * vocabularies of the configuration; an explore keeps its joins in a
 * dictionary keyed by name, where a later join of the same name replaces
 * the earlier one.
 */
module Explores {
  import opened Results
  import opened ODict
  import opened Values
  import opened Config
  import opened Text
  import opened Props
  import opened Base
  import opened Fields
  import opened ViewBind
  import opened ViewObjects

  // ----------------------------------------------------------- join values

  /** What a join built from LookML is made of: its name and its properties. */
  datatype JoinState = JoinState(identifier: string, props: Pairs<Value>)

  /**
   * `Join(input)`: a string names the join, a dictionary is bound as any
   * entity (a name that is not a string is refused), anything else gives an
   * unnamed join without properties.
   */
  function NewJoin(input: Value): (r: Result<JoinState>)
    ensures input.Str? ==> r == Ok(JoinState(input.s, []))
    ensures r.Ok? ==> Regular(r.value.props) && Get(r.value.props, "name").None?
    ensures input.Dict? ==> (r.Ok? <==> Get(input.entries, "name").None? || Get(input.entries, "name").value.Str?)
  {
    match input
    case Str(s) => Ok(JoinState(s, []))
    case Dict(d) =>
      var named :- BindEntity(d);
      Ok(JoinState(named.0, named.1))
    case _ => Ok(JoinState("", []))
  }

  /**
   * `setType` and `setRelationship`: the `assert value in vocabulary` and
   * then `addProperty(key, value)`. A refused value leaves the properties as
   * they were.
   */
  function SetChecked(e: Pairs<Value>, vocabulary: seq<string>, key: string, value: string): (r: Result<Pairs<Value>>)
    requires Regular(e) && key !in NONUNIQUE_PROPERTIES
    ensures r.Err? <==> value !in vocabulary
    ensures r.Err? ==> r.error == AssertionError
    ensures r.Ok? ==> Regular(r.value) && Get(r.value, key) == Some(Str(value))
    ensures r.Ok? ==> forall k :: k != key ==> Get(r.value, k) == Get(e, k)
  {
    if value !in vocabulary then Err(AssertionError)
    else
      AddOverwrites(e, key, Str(value));
      Ok(SetProp(e, key, Str(value)))
  }

  /** Setting the same checked value twice is setting it once. */
  lemma SetCheckedIdempotent(e: Pairs<Value>, vocabulary: seq<string>, key: string, value: string)
    requires Regular(e) && key !in NONUNIQUE_PROPERTIES
    requires SetChecked(e, vocabulary, key, value).Ok?
    ensures SetChecked(SetChecked(e, vocabulary, key, value).value, vocabulary, key, value)
            == SetChecked(e, vocabulary, key, value)
  {
    PutTwice(e, key, Str(value));
  }

  /** The join type and relationship accept exactly the words of the LookML vocabularies. */
  lemma JoinVocabularies(e: Pairs<Value>, v: string)
    requires Regular(e)
    ensures SetChecked(e, JOIN_TYPES, "type", v).Ok? <==> v in {"left_outer", "full_outer", "inner", "cross"}
    ensures SetChecked(e, RELATIONSHIPS, "relationship", v).Ok? <==>
              v in {"one_to_many", "many_to_one", "one_to_one", "many_to_many"}
  {
    Vocabularies();
  }

  /**
   * `on(left, operand, right)`: the full references of both fields around
   * the operand. A field whose view is missing (or has no fields, and so is
   * false) has no full reference, and `splice` cannot join it.
   */
  function OnClause(left: Option<string>, operand: string, right: Option<string>): (r: Result<string>)
    ensures r.Ok? <==> left.Some? && right.Some?
    ensures r.Err? ==> r.error == TypeError
    ensures r.Ok? ==> StartsWith(r.value, left.value) && |r.value| == |left.value| + |operand| + |right.value|
    ensures r.Ok? ==> r.value[|left.value|..|left.value| + |operand|] == operand
    ensures r.Ok? ==> r.value[|left.value| + |operand|..] == right.value
  {
    if left.None? || right.None? then Err(TypeError)
    else Ok(left.value + operand + right.value)
  }

  /** `field.__ref__` for a field whose `view` attribute is `v`. */
  function FullRef(v: View?, f: Field): (r: Option<string>)
    reads v
    ensures r.Some? <==> v != null && v.fields != []
    ensures r.Some? ==> r.value == Ref(v.identifier, f)
  {
    if v != null && v.fields != [] then Some(Ref(v.identifier, f)) else None
  }

  /** The fold of `_bind_lkml`'s entry loop as a loop, on a property dictionary. */
  method BindAll(e: Pairs<Value>, entries: Pairs<Value>) returns (r: Pairs<Value>)
    requires Regular(e)
    ensures r == BindProps(e, entries)
  {
    r := e;
    var k := 0;
    while k < |entries|
      invariant 0 <= k <= |entries| && Regular(r)
      invariant BindProps(e, entries) == BindProps(r, entries[k..])
    {
      assert entries[k..][1..] == entries[k + 1..];
      r := SetProp(r, entries[k].0, entries[k].1);
      k := k + 1;
    }
  }

  // ------------------------------------------------------------ join object

  class Join {
    var identifier: string
    var message: string
    var props: Pairs<Value>
    /** `_from`. */
    var from: string
    /** The view the join leads to, when one was given. */
    var to: View?

    ghost predicate Valid()
      reads this
    {
      Regular(props)
    }

    function State(): JoinState
      reads this
    {
      JoinState(identifier, props)
    }

    /** Only the properties changed. */
    twostate predicate PropsOnly()
      reads this
    {
      identifier == old(identifier) && message == old(message) && from == old(from) && to == old(to)
    }

    /** `Join(name)`. */
    constructor (name: string)
      ensures Valid() && State() == JoinState(name, [])
      ensures message == "" && from == "" && to == null
    {
      identifier := name;
      message := "";
      props := [];
      from := "";
      to := null;
    }

    /** `Join(input)`. */
    static method FromValue(input: Value) returns (r: Result<Join>)
      ensures r.Ok? <==> NewJoin(input).Ok?
      ensures r.Ok? ==> fresh(r.value) && r.value.Valid() && r.value.State() == NewJoin(input).value
      ensures r.Ok? ==> r.value.message == "" && r.value.from == "" && r.value.to == null
    {
      var j := new Join("");
      match input {
        case Str(s) =>
          j.identifier := s;
          r := Ok(j);
        case Dict(d) =>
          var name := Get(d, "name");
          if name.Some? && !name.value.Str? {
            r := Err(TypeError);
            return;
          }
          if name.Some? {
            j.identifier := name.value.s;
          }
          j.props := BindAll([], Pop(d, "name"));
          r := Ok(j);
        case _ =>
          r := Ok(j);
      }
    }

    method SetFrom(f: string)
      modifies this
      ensures from == f
      ensures identifier == old(identifier) && message == old(message) && props == old(props) && to == old(to)
    {
      from := f;
    }

    /** `setTo`: only a view is accepted, which the parameter's type already says. */
    method SetTo(t: View)
      modifies this
      ensures to == t
      ensures identifier == old(identifier) && message == old(message) && props == old(props) && from == old(from)
    {
      to := t;
    }

    /** `setOn`: the `sql_on` property. */
    method SetOn(sqlOn: string)
      requires Valid()
      modifies this
      ensures Valid() && PropsOnly()
      ensures props == SetProp(old(props), "sql_on", Str(sqlOn))
      ensures Get(props, "sql_on") == Some(Str(sqlOn))
    {
      AddOverwrites(props, "sql_on", Str(sqlOn));
      props := SetProp(props, "sql_on", Str(sqlOn));
    }

    /** `setSql`: the `sql` property. */
    method SetSql(sql: string)
      requires Valid()
      modifies this
      ensures Valid() && PropsOnly()
      ensures props == SetProp(old(props), "sql", Str(sql))
      ensures Get(props, "sql") == Some(Str(sql))
    {
      AddOverwrites(props, "sql", Str(sql));
      props := SetProp(props, "sql", Str(sql));
    }

    /**
     * `on(left, operand, right)`: `sql_on` becomes the two full references
     * around the operand; without a full reference it raises before any change.
     */
    method On(left: Field, leftView: View?, operand: string, right: Field, rightView: View?)
      returns (r: Result<()>)
      requires Valid()
      modifies this
      ensures Valid() && PropsOnly()
      ensures r.Ok? <==> OnClause(FullRef(leftView, left), operand, FullRef(rightView, right)).Ok?
      ensures r.Ok? ==> props == SetProp(old(props), "sql_on",
                                         Str(OnClause(FullRef(leftView, left), operand, FullRef(rightView, right)).value))
      ensures r.Err? ==> props == old(props)
    {
      var clause := OnClause(FullRef(leftView, left), operand, FullRef(rightView, right));
      if clause.Err? {
        r := Err(clause.error);
        return;
      }
      SetOn(clause.value);
      r := Ok(());
    }

    /** `setType`: one of the join types, or an assertion failure that changes nothing. */
    method SetType(joinType: string) returns (r: Result<()>)
      requires Valid()
      modifies this
      ensures Valid() && PropsOnly()
      ensures r.Ok? <==> SetChecked(old(props), JOIN_TYPES, "type", joinType).Ok?
      ensures r.Err? ==> r.error == AssertionError && props == old(props)
      ensures r.Ok? ==> props == SetChecked(old(props), JOIN_TYPES, "type", joinType).value
    {
      var next := SetChecked(props, JOIN_TYPES, "type", joinType);
      if next.Err? {
        r := Err(next.error);
        return;
      }
      props := next.value;
      r := Ok(());
    }

    /** `setRelationship`: one of the relationships, or an assertion failure that changes nothing. */
    method SetRelationship(rel: string) returns (r: Result<()>)
      requires Valid()
      modifies this
      ensures Valid() && PropsOnly()
      ensures r.Ok? <==> SetChecked(old(props), RELATIONSHIPS, "relationship", rel).Ok?
      ensures r.Err? ==> r.error == AssertionError && props == old(props)
      ensures r.Ok? ==> props == SetChecked(old(props), RELATIONSHIPS, "relationship", rel).value
    {
      var next := SetChecked(props, RELATIONSHIPS, "relationship", rel);
      if next.Err? {
        r := Err(next.error);
        return;
      }
      props := next.value;
      r := Ok(());
    }

    /** `hide`: a join is hidden by an empty `view_label`. */
    method Hide()
      requires Valid()
      modifies this
      ensures Valid() && PropsOnly()
      ensures props == SetProp(old(props), "view_label", Str(""))
      ensures Get(props, "view_label") == Some(Str(""))
      ensures forall k :: k != "view_label" ==> Get(props, k) == Get(old(props), k)
    {
      AddOverwrites(props, "view_label", Str(""));
      props := SetProp(props, "view_label", Str(""));
    }

    /** `str(join)`: the default template, tidied. */
    function Render(): (r: Result<string>)
      reads this
      ensures r.Ok? <==> RenderPropList(props).Ok?
    {
      RenderEntity(JoinToken, message, identifier, props)
    }

    /** The rendered join is already tidy and has no long run of whitespace. */
    lemma RenderTidy()
      requires Render().Ok?
      ensures Tidy(Render().value) == Render().value && NoLongRun(Render().value)
    {
      RenderEntityTidy(JoinToken, message, identifier, props);
    }
  }

  // -------------------------------------------------------- explore values

  /** What an explore built from LookML is made of. */
  datatype ExploreState = ExploreState(identifier: string, props: Pairs<Value>, joins: Pairs<JoinState>)

  /** Joins are stored under their name. */
  function JoinKey(j: JoinState): string
  {
    j.identifier
  }

  /** The `joins` section: absent, or an iterable whose items become joins. */
  function JoinsSection(d: Pairs<Value>): Result<Pairs<JoinState>>
  {
    match Get(d, "joins")
    case None => Ok([])
    case Some(v) =>
      match Occurrences(v)
      case None => Err(TypeError)
      case Some(items) => Register([], items, NewJoin, JoinKey)
  }

  /**
   * `Explore(input)`: a dictionary is bound name first, then its joins, then
   * every remaining entry as a property; a string names the explore.
   */
  function NewExplore(input: Value): (r: Result<ExploreState>)
    ensures input.Str? ==> r == Ok(ExploreState(input.s, [], []))
    ensures r.Ok? ==> Regular(r.value.props)
  {
    match input
    case Str(s) => Ok(ExploreState(s, [], []))
    case Dict(d) =>
      var name := Get(d, "name");
      if name.Some? && !name.value.Str? then Err(TypeError)
      else
        var rest := Pop(d, "name");
        var joins :- JoinsSection(rest);
        Ok(ExploreState(if name.Some? then name.value.s else "", BindProps([], Pop(rest, "joins")), joins))
    case _ => Ok(ExploreState("", [], []))
  }

  // -------------------------------------------------------- explore lemmas

  /**
   * `len(explore)` after binding a list of joins is the number of distinct
   * join names among them: a repeated name replaces, it does not add.
   */
  lemma ExploreJoinCount(d: Pairs<Value>, items: seq<Value>)
    requires Get(Pop(d, "name"), "joins") == Some(List(items))
    requires NewExplore(Dict(d)).Ok?
    ensures forall j :: 0 <= j < |items| ==> NewJoin(items[j]).Ok?
    ensures |NewExplore(Dict(d)).value.joins| == |MadeKeys(items, NewJoin, JoinKey)|
  {
    ExploreJoinsRegistered(d, items);
    RegisterKeys([], items, NewJoin, JoinKey);
    assert (set k | k in Keys<JoinState>([])) == {};
    KeyCount(Register([], items, NewJoin, JoinKey).value);
  }

  /** The joins of an explore bound from a list of joins are those the registry fold makes. */
  lemma ExploreJoinsRegistered(d: Pairs<Value>, items: seq<Value>)
    requires Get(Pop(d, "name"), "joins") == Some(List(items))
    requires NewExplore(Dict(d)).Ok?
    ensures Register([], items, NewJoin, JoinKey).Ok?
    ensures NewExplore(Dict(d)).value.joins == Register([], items, NewJoin, JoinKey).value
  {
    assert JoinsSection(Pop(d, "name")) == Register([], items, NewJoin, JoinKey);
  }

  /**
   * A bound explore keeps neither its name nor its joins among its
   * properties, and each of its joins is that of the last item of its name.
   */
  lemma ExploreBinding(d: Pairs<Value>, items: seq<Value>, j: int)
    requires Get(Pop(d, "name"), "joins") == Some(List(items))
    requires NewExplore(Dict(d)).Ok? && 0 <= j < |items|
    requires forall i :: 0 <= i < |items| ==> NewJoin(items[i]).Ok?
    requires forall l :: j < l < |items| ==>
               NewJoin(items[l]).value.identifier != NewJoin(items[j]).value.identifier
    ensures Get(NewExplore(Dict(d)).value.props, "name").None?
    ensures Get(NewExplore(Dict(d)).value.props, "joins").None?
    ensures Get(NewExplore(Dict(d)).value.joins, NewJoin(items[j]).value.identifier) == Some(NewJoin(items[j]).value)
  {
    var rest := Pop(d, "name");
    PopGet(d, "name", "name");
    PopGet(rest, "joins", "name");
    PopGet(rest, "joins", "joins");
    BindAbsent([], Pop(rest, "joins"), "name");
    BindAbsent([], Pop(rest, "joins"), "joins");
    ExploreJoinsRegistered(d, items);
    RegisterLastWins([], items, NewJoin, JoinKey, j);
  }

  /** The join objects a dictionary of joins holds. */
  ghost function Objects(js: Pairs<Join>): set<Join>
  {
    set i | 0 <= i < |js| :: js[i].1
  }

  /** The joins of an explore object hold, position by position, the given join values. */
  ghost predicate Mirrors(js: Pairs<Join>, s: Pairs<JoinState>)
    reads Objects(js)
  {
    |js| == |s| && Keys(js) == Keys(s) && forall i :: 0 <= i < |js| ==> js[i].1.State() == s[i].1
  }

  /** Storing a join object and its value under the same name keeps the two dictionaries in step. */
  lemma PutMirrors(js: Pairs<Join>, s: Pairs<JoinState>, k: string, j: Join, v: JoinState)
    requires Mirrors(js, s) && UniqueKeys(js) && j.State() == v
    ensures Mirrors(Put(js, k, j), Put(s, k, v)) && UniqueKeys(Put(js, k, j))
  {
    assert UniqueKeys(s) by {
      forall a, b | 0 <= a < b < |s| ensures s[a].0 != s[b].0 {
        assert Keys(s)[a] == Keys(js)[a] && Keys(s)[b] == Keys(js)[b];
      }
    }
    PutAt(js, k, j);
    PutAt(s, k, v);
    PutKeys(js, k, j);
    PutKeys(s, k, v);
    PutUnique(js, k, j);
    forall i | 0 <= i < |js| ensures js[i].0 == s[i].0 {
      assert Keys(js)[i] == Keys(s)[i];
    }
  }

  /** The explore template filled with the rendered properties and joins. */
  function ExploreText(message: string, identifier: string, ps: seq<string>, js: seq<string>): string
  {
    ExploreTemplate(MessageLine(message), "explore", identifier,
                    Stringify(ps, NEWLINEINDENT, true, false), Stringify(js, NEWLINEINDENT, true, false))
  }

  /** The explore text holds every rendered join. */
  lemma ExploreTextShows(message: string, identifier: string, ps: seq<string>, js: seq<string>)
    ensures forall k :: 0 <= k < |js| ==> Contains(ExploreText(message, identifier, ps, js), js[k])
  {
    var pre := "\n" + MessageLine(message) + " " + "explore" + ": " + identifier + " { " + Stringify(ps, NEWLINEINDENT, true, false) + " ";
    var body := Stringify(js, NEWLINEINDENT, true, false);
    forall k | 0 <= k < |js| ensures Contains(ExploreText(message, identifier, ps, js), js[k]) {
      StringifyContains(js, NEWLINEINDENT, true, false, k);
      ContainsAppend(pre, body, js[k]);
      ContainsExtend(pre + body, " }\n", js[k]);
    }
  }

  // --------------------------------------------------------- explore object

  class Explore {
    var identifier: string
    var message: string
    var props: Pairs<Value>
    /** `joins`, keyed by the name each join had when it was added. */
    var joins: Pairs<Join>

    ghost predicate Valid()
      reads this
    {
      Regular(props) && UniqueKeys(joins)
    }

    /** Only the joins changed. */
    twostate predicate JoinsOnly()
      reads this
    {
      identifier == old(identifier) && message == old(message) && props == old(props)
    }

    /** `Explore(name)`. */
    constructor (name: string)
      ensures Valid() && identifier == name && message == "" && props == [] && joins == []
    {
      identifier := name;
      message := "";
      props := [];
      joins := [];
    }

    /** `Explore(input)`. */
    static method FromValue(input: Value) returns (r: Result<Explore>)
      ensures r.Ok? <==> NewExplore(input).Ok?
      ensures r.Ok? ==> fresh(r.value) && r.value.Valid() && r.value.message == ""
      ensures r.Ok? ==> r.value.identifier == NewExplore(input).value.identifier
      ensures r.Ok? ==> r.value.props == NewExplore(input).value.props
      ensures r.Ok? ==> Mirrors(r.value.joins, NewExplore(input).value.joins)
    {
      var e := new Explore("");
      match input {
        case Str(s) =>
          e.identifier := s;
          r := Ok(e);
        case Dict(d) =>
          var name := Get(d, "name");
          if name.Some? && !name.value.Str? {
            r := Err(TypeError);
            return;
          }
          if name.Some? {
            e.identifier := name.value.s;
          }
          var rest := Pop(d, "name");
          var section := Get(rest, "joins");
          if section.Some? {
            var items := Occurrences(section.value);
            if items.None? {
              r := Err(TypeError);
              return;
            }
            var added := e.BindJoins(items.value, []);
            if added.Err? {
              r := Err(added.error);
              return;
            }
          }
          e.props := BindAll([], Pop(rest, "joins"));
          r := Ok(e);
        case _ =>
          r := Ok(e);
      }
    }

    /** The `joins` loop of `_bind_lkml`: `self + Join(join)` for every item. */
    method BindJoins(items: seq<Value>, ghost shadow: Pairs<JoinState>) returns (r: Result<()>)
      requires Valid() && Mirrors(joins, shadow)
      modifies this
      ensures Valid() && JoinsOnly()
      ensures r.Ok? <==> Register(shadow, items, NewJoin, JoinKey).Ok?
      ensures r.Ok? ==> Mirrors(joins, Register(shadow, items, NewJoin, JoinKey).value)
    {
      ghost var s := shadow;
      var i := 0;
      while i < |items|
        invariant 0 <= i <= |items|
        invariant Valid() && JoinsOnly() && Mirrors(joins, s)
        invariant Register(shadow, items, NewJoin, JoinKey) == Register(s, items[i..], NewJoin, JoinKey)
      {
        assert items[i..][1..] == items[i + 1..];
        var added;
        added, s := BindJoin(items[i], s);
        if added.Err? {
          r := Err(added.error);
          return;
        }
        i := i + 1;
      }
      r := Ok(());
    }

    /** `self + Join(item)`: the new join is stored under its name. */
    method BindJoin(item: Value, ghost s: Pairs<JoinState>) returns (r: Result<()>, ghost s': Pairs<JoinState>)
      requires Valid() && Mirrors(joins, s)
      modifies this
      ensures Valid() && JoinsOnly()
      ensures r.Ok? <==> NewJoin(item).Ok?
      ensures r.Ok? ==> s' == Put(s, NewJoin(item).value.identifier, NewJoin(item).value) && Mirrors(joins, s')
    {
      s' := s;
      var j := Join.FromValue(item);
      if j.Err? {
        r := Err(j.error);
        return;
      }
      var join := j.value;
      ghost var v := join.State();
      ghost var next := Put(joins, join.identifier, join);
      PutMirrors(joins, s, join.identifier, join, v);
      assert Mirrors(next, Put(s, v.identifier, v));
      AddJoin(join);
      assert joins == next;
      s' := Put(s, v.identifier, v);
      assert Mirrors(next, s');
      r := Ok(());
    }

    /** `__len__`: the number of joins, one per name. */
    function Length(): (n: nat)
      reads this
      requires Valid()
      ensures n == |set k | k in Keys(joins)|
    {
      KeyCount(joins);
      |joins|
    }

    /** `getJoin`: the join stored under the name, or none (`{}` in the source). */
    function GetJoin(name: string): (r: Option<Join>)
      reads this
      ensures r.Some? <==> name in Keys(joins)
      ensures r.Some? ==> (name, r.value) in joins
    {
      GetMisses(joins, name);
      Get(joins, name)
    }

    /** `addJoin(join)`: stored under its current name, replacing any join of that name. */
    method AddJoin(j: Join)
      requires Valid()
      modifies this
      ensures Valid() && JoinsOnly()
      ensures joins == Put(old(joins), j.identifier, j)
      ensures GetJoin(j.identifier) == Some(j)
      ensures forall k :: k != j.identifier ==> GetJoin(k) == old(GetJoin(k))
    {
      PutUnique(joins, j.identifier, j);
      PutGet(joins, j.identifier, j);
      PutOthers(joins, j.identifier, j);
      joins := Put(joins, j.identifier, j);
    }

    /** `addJoin(view)`: a new join named after the view and leading to it. */
    method AddViewJoin(v: View) returns (j: Join)
      requires Valid()
      modifies this
      ensures fresh(j) && j.State() == JoinState(v.identifier, []) && j.to == v
      ensures j.Valid() && j.message == "" && j.from == ""
      ensures Valid() && JoinsOnly()
      ensures joins == Put(old(joins), v.identifier, j)
    {
      j := new Join(v.identifier);
      j.SetTo(v);
      AddJoin(j);
    }

    /** `setViewName`: the `view_name` property. */
    method SetViewName(view: string)
      requires Valid()
      modifies this
      ensures Valid() && identifier == old(identifier) && message == old(message) && joins == old(joins)
      ensures props == SetProp(old(props), "view_name", Str(view))
      ensures Get(props, "view_name") == Some(Str(view))
    {
      AddOverwrites(props, "view_name", Str(view));
      props := SetProp(props, "view_name", Str(view));
    }

    /** `[str(j) for j in self.getJoins()]`, each rendering kept with its outcome. */
    function JoinTexts(): (rs: seq<Result<string>>)
      reads this, Objects(joins)
      ensures |rs| == |joins| && forall k :: 0 <= k < |joins| ==> rs[k] == joins[k].1.Render()
    {
      seq(|joins|, k requires 0 <= k < |joins| reads this, Objects(joins) => joins[k].1.Render())
    }

    /** `str(explore)`: the explore template around its properties and its joins, not tidied. */
    function Render(): (r: Result<string>)
      reads this, Objects(joins)
    {
      var ps :- RenderPropList(props);
      var js :- Collect(JoinTexts());
      Ok(ExploreText(message, identifier, ps, js))
    }

    /**
     * An explore renders exactly when its properties and every one of its
     * joins do, and its text then holds each join's own rendering.
     */
    lemma RenderShowsJoins()
      ensures Render().Ok? <==> RenderPropList(props).Ok? && forall k :: 0 <= k < |joins| ==> joins[k].1.Render().Ok?
      ensures Render().Ok? ==> forall k :: 0 <= k < |joins| ==> Contains(Render().value, joins[k].1.Render().value)
    {
      var ts := JoinTexts();
      if Render().Ok? {
        ExploreTextShows(message, identifier, RenderPropList(props).value, Collect(ts).value);
      }
    }
  }
}

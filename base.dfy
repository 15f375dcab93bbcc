/**
 * What every LookML entity (`base` in lookml/lookml.py) shares: a name, a
 * comment message and a dictionary of properties that only ever changes
 * through `addProperty`, and the default rendering through a template.
 */
module Base {
  import opened Results
  import opened ODict
  import opened Values
  import opened Config
  import opened Text
  import opened Props

  /** `getMessage`: the message as a `#` comment line, or nothing at all. */
  function MessageLine(message: string): (r: string)
    ensures message == [] ==> r == []
    ensures message != [] ==> |r| == |message| + 2 && r[0] == '#' && r[1..|r| - 1] == message && r[|r| - 1] == '\n'
  {
    if message == [] then "" else "#" + message + NEWLINE
  }

  /**
   * `setProperty` on an entity's own dictionary: the update `addProperty`
   * makes, which on a regular dictionary never fails and keeps it regular.
   */
  function SetProp(e: Pairs<Value>, name: string, v: Value): (r: Pairs<Value>)
    requires Regular(e)
    ensures Regular(r)
    ensures AddProp(Dict(e), name, v) == Ok(Dict(r))
  {
    AddKeepsRegular(e, name, v);
    AddProp(Dict(e), name, v).value.entries
  }

  /** For a key that does not repeat, `setProperty` is the dictionary update. */
  lemma SetPropPut(e: Pairs<Value>, name: string, v: Value)
    requires Regular(e) && name !in NONUNIQUE_PROPERTIES
    ensures SetProp(e, name, v) == Put(e, name, v)
  {
    assert AddProp(Dict(e), name, v) == Ok(Dict(Put(e, name, v)));
  }

  /** `unSetProperty`, read as the dictionary pop of `Properties.__delete__`. */
  function UnsetProp(e: Pairs<Value>, name: string): (r: Pairs<Value>)
    requires Regular(e)
    ensures Regular(r)
    ensures DeleteProp(Dict(e), name) == Ok(Dict(r))
    ensures Get(r, name).None?
    ensures forall k :: k != name ==> Get(r, k) == Get(e, k)
  {
    DeleteKeepsRegular(e, name);
    DeleteRemoves(e, name);
    Pop(e, name)
  }

  /**
   * `unSetProperty` as written: it calls `__del__` on the properties object,
   * a method `Properties` does not define, so every call raises
   * `AttributeError` before anything is removed.
   */
  function UnsetPropAsWritten(e: Pairs<Value>, name: string): Result<Pairs<Value>>
  {
    Err(AttributeError)
  }

  /**
   * The discrepancy on the smallest case that matters: unmarking a primary
   * key (`primary_key: yes`) raises as written, where the intended pop leaves
   * an empty dictionary.
   */
  lemma UnsetAsWrittenRaises()
    ensures UnsetPropAsWritten([("primary_key", Str("yes"))], "primary_key").Err?
    ensures UnsetProp([("primary_key", Str("yes"))], "primary_key") == []
  {
    var e: Pairs<Value> := [("primary_key", Str("yes"))];
    assert Regular(e);
    assert Pop(e, "primary_key") == [];
  }

  /** The loop of `_bind_lkml`: `setProperty(k, v)` for every remaining entry, in order. */
  function BindProps(e: Pairs<Value>, input: Pairs<Value>): (r: Pairs<Value>)
    requires Regular(e)
    ensures Regular(r)
    decreases |input|
  {
    if input == [] then e
    else BindProps(SetProp(e, input[0].0, input[0].1), input[1..])
  }

  /** Binding is the fold of `addProperty` over the entries. */
  lemma {:induction false} BindIsRebuild(e: Pairs<Value>, input: Pairs<Value>)
    requires Regular(e)
    ensures Rebuild(Dict(e), input) == Ok(Dict(BindProps(e, input)))
    decreases |input|
  {
    if input != [] {
      BindIsRebuild(SetProp(e, input[0].0, input[0].1), input[1..]);
    }
  }

  /**
   * Reading an entity's properties out with `getProperties` and setting each
   * one again on an empty entity gives back the same dictionary.
   */
  lemma PropertiesRoundTrip(e: Pairs<Value>)
    requires Regular(e)
    ensures !GetProperties(Dict(e), None).failed
    ensures BindProps([], GetProperties(Dict(e), None).pairs) == e
  {
    ExpansionRoundTrip(e, None);
    BindIsRebuild([], GetProperties(Dict(e), None).pairs);
  }

  /**
   * `_bind_lkml` on a dictionary: the `name` entry (when there is one) names
   * the entity, and every other entry becomes a property. A name that is not
   * a string is refused.
   */
  function BindEntity(input: Pairs<Value>): (r: Result<(string, Pairs<Value>)>)
    ensures r.Ok? <==> Get(input, "name").None? || Get(input, "name").value.Str?
    ensures r.Ok? ==> Regular(r.value.1) && Get(r.value.1, "name").None?
    ensures r.Ok? && Get(input, "name").Some? ==> r.value.0 == Get(input, "name").value.s
    ensures r.Ok? && Get(input, "name").None? ==> r.value.0 == ""
  {
    var rest := Pop(input, "name");
    PopGet(input, "name", "name");
    BindNeverNames([], rest);
    match Get(input, "name")
    case None => Ok(("", BindProps([], rest)))
    case Some(n) => if n.Str? then Ok((n.s, BindProps([], rest))) else Err(TypeError)
  }

  /** Binding entries without a `name` key never adds one. */
  lemma {:induction false} BindNeverNames(e: Pairs<Value>, input: Pairs<Value>)
    requires Regular(e) && Get(e, "name").None? && Get(input, "name").None?
    ensures Get(BindProps(e, input), "name").None?
    decreases |input|
  {
    if input != [] {
      var k := input[0].0;
      assert k != "name";
      var v := AddProp(Dict(e), k, input[0].1).value;
      if k in NONUNIQUE_PROPERTIES {
        var index := match Get(e, k) case None => List([]) case Some(x) => x;
        PutOther(e, k, List(index.items + [input[0].1]), "name");
      } else {
        PutOther(e, k, input[0].1, "name");
      }
      BindNeverNames(SetProp(e, k, input[0].1), input[1..]);
    }
  }

  /** The rendered text of every property, in `getProperties` order. */
  function RenderPropList(e: Pairs<Value>): (r: Result<seq<string>>)
    ensures r.Ok? ==> |r.value| == |GetProperties(Dict(e), None).pairs|
  {
    RenderExpansion(GetProperties(Dict(e), None), Height(Dict(e)))
  }

  /** The props block: each property indented, one per line only when there are more than two. */
  function PropsBlock(rs: seq<string>): string
  {
    Stringify(PrefixEach(INDENT, rs), NEWLINEINDENT, |rs| > 2, false)
  }

  /** `base.__str__` for fields and joins: the template, tidied. */
  function RenderEntity(t: Token, message: string, identifier: string, e: Pairs<Value>): (r: Result<string>)
    requires t != ViewToken && t != ExploreToken
  {
    var rs :- RenderPropList(e);
    Ok(Tidy(EntityTemplate(t, MessageLine(message), identifier, PropsBlock(rs))))
  }

  /**
   * The rendered entity is already tidy, has no ten whitespace characters in
   * a row, and keeps every visible character of the template in order: the
   * message, token, name and properties.
   */
  lemma RenderEntityTidy(t: Token, message: string, identifier: string, e: Pairs<Value>)
    requires t != ViewToken && t != ExploreToken
    requires RenderEntity(t, message, identifier, e).Ok?
    ensures var r := RenderEntity(t, message, identifier, e).value;
      var body := DefaultTemplate(MessageLine(message), TokenName(t), identifier, PropsBlock(RenderPropList(e).value));
      Tidy(r) == r && NoLongRun(r) && NonSpace(r) == NonSpace(body)
  {
    var body := DefaultTemplate(MessageLine(message), TokenName(t), identifier, PropsBlock(RenderPropList(e).value));
    TidyIdempotent(body);
    TidyNoLongRun(body);
    TidyKeepsText(body);
  }

  /** An entity with no properties renders as `token: name {  }` after its message. */
  lemma RenderEmptyEntity(t: Token, message: string, identifier: string)
    requires t != ViewToken && t != ExploreToken
    ensures RenderEntity(t, message, identifier, []) ==
              Ok(Tidy(MessageLine(message) + TokenName(t) + ": " + identifier + " {  }"))
  {
    EmptyPropsBlock();
    EmptyTemplate(t, MessageLine(message), identifier);
  }

  /** No properties render to an empty block. */
  lemma EmptyPropsBlock()
    ensures RenderPropList([]) == Ok([]) && PropsBlock([]) == ""
  {
    assert GetProperties(Dict([]), None) == Expansion([], false);
  }

  /** The template with an empty block keeps the two spaces between the braces. */
  lemma EmptyTemplate(t: Token, m: string, identifier: string)
    requires t != ViewToken && t != ExploreToken
    ensures EntityTemplate(t, m, identifier, "") == m + TokenName(t) + ": " + identifier + " {  }"
  {
    var a := m + TokenName(t) + ": " + identifier;
    assert a + " { " + "" + " }" == a + " {  }";
  }
}

/**
 * `Field.setName_safe` (lookml/lookml.py): rename a field of a view, rewrite
 * the `sql` of every field of the view that refers to the old name, then
 * take the field out of the view and put it back under its new name.
 *
 * References are the short form `${name}` and the full form
 * `${view.name}`; the search and the substitutions treat them as literal
 * text.
 */
module Renames {
  import opened Results
  import opened ODict
  import opened Values
  import opened Config
  import opened Text
  import opened Props
  import opened Fields
  import opened Views

  // ------------------------------------------------------------ references

  /** `__refs__` of a field named `n`. */
  function ShortRef(n: string): string { "${" + n + "}" }

  /** `__ref__` of a field named `n` in view `view`. */
  function FullRef(view: string, n: string): string { "${" + view + "." + n + "}" }

  /** Different names give different references of each form. */
  lemma RefsDiffer(view: string, a: string, b: string)
    requires a != b
    ensures ShortRef(a) != ShortRef(b) && FullRef(view, a) != FullRef(view, b)
  {
    assert ShortRef(a)[2..|ShortRef(a)| - 1] == a;
    assert ShortRef(b)[2..|ShortRef(b)| - 1] == b;
    assert FullRef(view, a)[|view| + 3..|FullRef(view, a)| - 1] == a;
    assert FullRef(view, b)[|view| + 3..|FullRef(view, b)| - 1] == b;
  }

  // ----------------------------------------------------- a field's sql text

  /** What `getProperty('sql')` wraps: the stored value, or an empty list. */
  function SqlOf(f: Field): Value
  {
    match Get(f.props, "sql") case None => List([]) case Some(v) => v
  }

  /** `str(field.sql.value)`: the text the substitutions work on. */
  function SqlText(f: Field): Result<string>
  {
    var p :- MakeProperty("sql", SqlOf(f));
    RenderValue(p.value)
  }

  /** `str(field.getProperty('sql'))`: the text `search` matches. */
  function SqlShown(f: Field): Result<string>
  {
    var p :- MakeProperty("sql", SqlOf(f));
    RenderProperty(p)
  }

  lemma SqlShape()
    ensures ShapeOf("sql") == ExprBlockShape
  {
    assert "sql" in EXPR_BLOCK_KEYS;
  }

  /** `sql` renders as its text followed by ` ;;`. */
  lemma ShownWraps(f: Field)
    ensures SqlShown(f).Ok? <==> SqlText(f).Ok?
    ensures SqlShown(f).Ok? ==> SqlShown(f).value == "sql: " + SqlText(f).value + " ;;"
  {
    var p := MakeProperty("sql", SqlOf(f));
    if p.Ok? {
      SqlShape();
      assert SqlShown(f) == RenderProperty(p.value);
    }
  }

  /** The test `search('sql', [refsre, refre])` applies to one field: either reference of the old name. */
  function Mentions(f: Field, view: string, oldName: string): Result<bool>
  {
    var shown :- SqlShown(f);
    Ok(Contains(shown, ShortRef(oldName)) || Contains(shown, FullRef(view, oldName)))
  }

  /** The match on the rendered property is a match on the sql text itself. */
  lemma MentionsText(f: Field, view: string, oldName: string)
    requires PlainName(view) && PlainName(oldName)
    ensures Mentions(f, view, oldName).Ok? <==> SqlText(f).Ok?
    ensures Mentions(f, view, oldName).Ok? ==>
              Mentions(f, view, oldName).value ==
              (Contains(SqlText(f).value, ShortRef(oldName)) || Contains(SqlText(f).value, FullRef(view, oldName)))
  {
    ShownWraps(f);
    if SqlText(f).Ok? {
      var text := SqlText(f).value;
      ShortRefDelimited(oldName);
      FullRefDelimited(view, oldName);
      Wrapped("sql: ", text, " ;;", ShortRef(oldName));
      Wrapped("sql: ", text, " ;;", FullRef(view, oldName));
    }
  }

  // ------------------------------------------------------- the substitution

  /** The two `re.sub` calls: short references first, then full ones. */
  function Retargeted(text: string, view: string, oldName: string, newName: string): string
  {
    ReplaceAll(ReplaceAll(text, ShortRef(oldName), ShortRef(newName)), FullRef(view, oldName), FullRef(view, newName))
  }

  /** Afterwards the text refers to the old name in neither form. */
  lemma RetargetedDropsOld(text: string, view: string, oldName: string, newName: string)
    requires PlainName(view) && PlainName(oldName) && PlainName(newName) && oldName != newName
    ensures !Contains(Retargeted(text, view, oldName, newName), ShortRef(oldName))
    ensures !Contains(Retargeted(text, view, oldName, newName), FullRef(view, oldName))
  {
    ShortRefDelimited(oldName);
    ShortRefDelimited(newName);
    FullRefDelimited(view, oldName);
    FullRefDelimited(view, newName);
    RefsDiffer(view, oldName, newName);
    ShortIsNotFull(oldName, view, newName);
    var once := ReplaceAll(text, ShortRef(oldName), ShortRef(newName));
    ReplaceAllRemoves(text, ShortRef(oldName), ShortRef(newName));
    ReplaceAllAddsNone(once, FullRef(view, oldName), FullRef(view, newName), ShortRef(oldName));
    ReplaceAllRemoves(once, FullRef(view, oldName), FullRef(view, newName));
  }

  /** Where the old name was referred to in a form, the new name now is, in that form. */
  lemma RetargetedAddsNew(text: string, view: string, oldName: string, newName: string)
    requires PlainName(view) && PlainName(oldName) && PlainName(newName)
    ensures Contains(text, ShortRef(oldName)) ==> Contains(Retargeted(text, view, oldName, newName), ShortRef(newName))
    ensures Contains(text, FullRef(view, oldName)) ==> Contains(Retargeted(text, view, oldName, newName), FullRef(view, newName))
  {
    ShortRefDelimited(oldName);
    ShortRefDelimited(newName);
    FullRefDelimited(view, oldName);
    FullRefDelimited(view, newName);
    ShortIsNotFull(oldName, view, oldName);
    ShortIsNotFull(newName, view, oldName);
    var once := ReplaceAll(text, ShortRef(oldName), ShortRef(newName));
    if Contains(text, ShortRef(oldName)) {
      ReplaceAllIntroduces(text, ShortRef(oldName), ShortRef(newName));
      ReplaceAllKeeps(once, FullRef(view, oldName), FullRef(view, newName), ShortRef(newName));
    }
    if Contains(text, FullRef(view, oldName)) {
      ReplaceAllKeeps(text, ShortRef(oldName), ShortRef(newName), FullRef(view, oldName));
      ReplaceAllIntroduces(once, FullRef(view, oldName), FullRef(view, newName));
    }
  }

  /** Any other reference stays where it was, and none appears that was not there. */
  lemma RetargetedKeepsOthers(text: string, view: string, oldName: string, newName: string, w: string)
    requires PlainName(view) && PlainName(oldName) && PlainName(newName) && Delimited(w)
    requires w != ShortRef(oldName) && w != FullRef(view, oldName)
    ensures Contains(text, w) ==> Contains(Retargeted(text, view, oldName, newName), w)
    ensures w != ShortRef(newName) && w != FullRef(view, newName) && !Contains(text, w) ==>
              !Contains(Retargeted(text, view, oldName, newName), w)
  {
    ShortRefDelimited(oldName);
    ShortRefDelimited(newName);
    FullRefDelimited(view, oldName);
    FullRefDelimited(view, newName);
    var once := ReplaceAll(text, ShortRef(oldName), ShortRef(newName));
    if Contains(text, w) {
      ReplaceAllKeeps(text, ShortRef(oldName), ShortRef(newName), w);
      ReplaceAllKeeps(once, FullRef(view, oldName), FullRef(view, newName), w);
    }
    if w != ShortRef(newName) && w != FullRef(view, newName) && !Contains(text, w) {
      ReplaceAllAddsNone(text, ShortRef(oldName), ShortRef(newName), w);
      ReplaceAllAddsNone(once, FullRef(view, oldName), FullRef(view, newName), w);
    }
  }

  // ------------------------------------------------------------ one field

  /** The field changes only in its `sql`. */
  ghost predicate SqlOnly(f: Field, g: Field)
  {
    g.kind == f.kind && g.identifier == f.identifier && g.message == f.message && g.dbColumn == f.dbColumn &&
    forall p :: p != "sql" ==> Get(g.props, p) == Get(f.props, p)
  }

  /** The two assignments to `f.sql`: the second reads back what the first stored. */
  function Retarget(f: Field, view: string, oldName: string, newName: string): (r: Result<Field>)
    requires ValidField(f)
    ensures r.Ok? <==> SqlText(f).Ok?
    ensures r.Ok? ==> ValidField(r.value) && SqlOnly(f, r.value)
    ensures r.Ok? ==> SqlText(r.value) == Ok(Retargeted(SqlText(f).value, view, oldName, newName))
  {
    var text :- SqlText(f);
    assert "sql" !in NONUNIQUE_PROPERTIES;
    Ok(SetField(f, "sql", Str(Retargeted(text, view, oldName, newName))))
  }

  /** One step of the loop over `search`'s results: a field that mentions the old name is retargeted. */
  function Rewritten(f: Field, view: string, oldName: string, newName: string): (r: Result<Field>)
    requires ValidField(f)
    ensures r.Ok? ==> ValidField(r.value) && SqlOnly(f, r.value)
  {
    var m :- Mentions(f, view, oldName);
    if m then Retarget(f, view, oldName, newName) else Ok(f)
  }

  /** After a step, the sql text mentions the old name in neither form. */
  lemma RewrittenClears(f: Field, view: string, oldName: string, newName: string)
    requires ValidField(f) && PlainName(view) && PlainName(oldName) && PlainName(newName) && oldName != newName
    requires Rewritten(f, view, oldName, newName).Ok?
    ensures SqlText(f).Ok? && SqlText(Rewritten(f, view, oldName, newName).value).Ok?
    ensures !Contains(SqlText(Rewritten(f, view, oldName, newName).value).value, ShortRef(oldName))
    ensures !Contains(SqlText(Rewritten(f, view, oldName, newName).value).value, FullRef(view, oldName))
  {
    MentionsText(f, view, oldName);
    if Mentions(f, view, oldName).value {
      RetargetedDropsOld(SqlText(f).value, view, oldName, newName);
    }
  }

  /** After a step, the sql text mentions the new name wherever it mentioned the old one. */
  lemma RewrittenAddsNew(f: Field, view: string, oldName: string, newName: string)
    requires ValidField(f) && PlainName(view) && PlainName(oldName) && PlainName(newName)
    requires Rewritten(f, view, oldName, newName).Ok?
    ensures SqlText(f).Ok? && SqlText(Rewritten(f, view, oldName, newName).value).Ok?
    ensures Contains(SqlText(f).value, ShortRef(oldName)) ==>
              Contains(SqlText(Rewritten(f, view, oldName, newName).value).value, ShortRef(newName))
    ensures Contains(SqlText(f).value, FullRef(view, oldName)) ==>
              Contains(SqlText(Rewritten(f, view, oldName, newName).value).value, FullRef(view, newName))
  {
    MentionsText(f, view, oldName);
    RetargetedAddsNew(SqlText(f).value, view, oldName, newName);
  }

  // --------------------------------------------------- the loop over fields

  /** Replacing the field at one position by one that keeps its name keeps the table well keyed. */
  lemma SetAtWellKeyed(fs: Pairs<Field>, i: int, g: Field)
    requires WellKeyed(fs) && 0 <= i < |fs| && g.identifier == fs[i].0 && ValidField(g)
    ensures WellKeyed(fs[i := (fs[i].0, g)]) && Keys(fs[i := (fs[i].0, g)]) == Keys(fs)
  {
    var r := fs[i := (fs[i].0, g)];
    assert forall j :: 0 <= j < |fs| ==> Keys(r)[j] == Keys(fs)[j];
  }

  /**
   * The loop of `setName_safe` from position `i` on: each field `search`
   * yields gets its `sql` rewritten. A `sql` that cannot be rendered raises
   * and stops the loop, keeping the fields already rewritten.
   */
  function RewriteFrom(t: Table, i: nat, view: string, oldName: string, newName: string): (r: Run<()>)
    requires WellKeyed(t.fields) && i <= |t.fields|
    ensures WellKeyed(r.after.fields) && Keys(r.after.fields) == Keys(t.fields) && r.after.pk == t.pk
    ensures |r.after.fields| == |t.fields|
    ensures forall j :: 0 <= j < |t.fields| ==> SqlOnly(t.fields[j].1, r.after.fields[j].1)
    ensures forall j :: 0 <= j < i ==> r.after.fields[j] == t.fields[j]
    decreases |t.fields| - i
  {
    if i == |t.fields| then Run(t, Ok(()))
    else
      var f := t.fields[i].1;
      match Rewritten(f, view, oldName, newName)
      case Err(e) => Run(t, Err(e))
      case Ok(g) =>
        SetAtWellKeyed(t.fields, i, g);
        RewriteFrom(Table(t.fields[i := (t.fields[i].0, g)], t.pk), i + 1, view, oldName, newName)
  }

  /** When the loop completes, every field from position `i` on is its rewritten self. */
  lemma {:induction false} RewriteFromDone(t: Table, i: nat, view: string, oldName: string, newName: string)
    requires WellKeyed(t.fields) && i <= |t.fields|
    requires RewriteFrom(t, i, view, oldName, newName).outcome.Ok?
    ensures forall j :: i <= j < |t.fields| ==>
              Rewritten(t.fields[j].1, view, oldName, newName).Ok? &&
              RewriteFrom(t, i, view, oldName, newName).after.fields[j].1 == Rewritten(t.fields[j].1, view, oldName, newName).value
    decreases |t.fields| - i
  {
    var r := RewriteFrom(t, i, view, oldName, newName);
    if i < |t.fields| {
      var f := t.fields[i].1;
      var g := Rewritten(f, view, oldName, newName).value;
      SetAtWellKeyed(t.fields, i, g);
      var t1 := Table(t.fields[i := (t.fields[i].0, g)], t.pk);
      RewriteFromDone(t1, i + 1, view, oldName, newName);
      assert r == RewriteFrom(t1, i + 1, view, oldName, newName);
      forall j | i <= j < |t.fields|
        ensures Rewritten(t.fields[j].1, view, oldName, newName).Ok?
        ensures r.after.fields[j].1 == Rewritten(t.fields[j].1, view, oldName, newName).value
      {
        if j > i {
          assert t1.fields[j] == t.fields[j];
        }
      }
    }
  }

  /** The whole loop, from the first field. */
  function RewriteAll(t: Table, view: string, oldName: string, newName: string): (r: Run<()>)
    requires WellKeyed(t.fields)
    ensures WellKeyed(r.after.fields) && Keys(r.after.fields) == Keys(t.fields) && r.after.pk == t.pk
  {
    RewriteFrom(t, 0, view, oldName, newName)
  }

  /** A field's `sql` after a completed loop mentions the old name nowhere. */
  lemma RewriteAllClears(t: Table, view: string, oldName: string, newName: string, k: string)
    requires WellKeyed(t.fields) && PlainName(view) && PlainName(oldName) && PlainName(newName) && oldName != newName
    requires RewriteAll(t, view, oldName, newName).outcome.Ok?
    requires k in Keys(t.fields)
    ensures Get(RewriteAll(t, view, oldName, newName).after.fields, k).Some?
    ensures SqlText(Get(RewriteAll(t, view, oldName, newName).after.fields, k).value).Ok?
    ensures !Contains(SqlText(Get(RewriteAll(t, view, oldName, newName).after.fields, k).value).value, ShortRef(oldName))
    ensures !Contains(SqlText(Get(RewriteAll(t, view, oldName, newName).after.fields, k).value).value, FullRef(view, oldName))
  {
    var a := RewriteAll(t, view, oldName, newName).after;
    var j :| 0 <= j < |t.fields| && Keys(t.fields)[j] == k;
    assert Keys(a.fields)[j] == k;
    GetAt(a.fields, j);
    RewriteFromDone(t, 0, view, oldName, newName);
    var f := t.fields[j].1;
    assert ValidField(f);
    assert Get(a.fields, k) == Some(Rewritten(f, view, oldName, newName).value);
    RewrittenClears(f, view, oldName, newName);
  }

  /** A field's `sql` after a completed loop mentions the new name wherever it mentioned the old one. */
  lemma RewriteAllAddsNew(t: Table, view: string, oldName: string, newName: string, k: string)
    requires WellKeyed(t.fields) && PlainName(view) && PlainName(oldName) && PlainName(newName)
    requires RewriteAll(t, view, oldName, newName).outcome.Ok?
    requires Get(t.fields, k).Some?
    ensures SqlText(Get(t.fields, k).value).Ok?
    ensures Get(RewriteAll(t, view, oldName, newName).after.fields, k).Some?
    ensures SqlText(Get(RewriteAll(t, view, oldName, newName).after.fields, k).value).Ok?
    ensures Contains(SqlText(Get(t.fields, k).value).value, ShortRef(oldName)) ==>
              Contains(SqlText(Get(RewriteAll(t, view, oldName, newName).after.fields, k).value).value, ShortRef(newName))
    ensures Contains(SqlText(Get(t.fields, k).value).value, FullRef(view, oldName)) ==>
              Contains(SqlText(Get(RewriteAll(t, view, oldName, newName).after.fields, k).value).value, FullRef(view, newName))
  {
    var a := RewriteAll(t, view, oldName, newName).after;
    GetMisses(t.fields, k);
    var j :| 0 <= j < |t.fields| && Keys(t.fields)[j] == k;
    assert Keys(a.fields)[j] == k;
    GetAt(t.fields, j);
    GetAt(a.fields, j);
    RewriteFromDone(t, 0, view, oldName, newName);
    Found(t.fields, k);
    RewrittenAddsNew(t.fields[j].1, view, oldName, newName);
  }

  /** The loop changes no name, no kind and no mark: only `sql` texts. */
  lemma RewriteAllSqlOnly(t: Table, view: string, oldName: string, newName: string, k: string)
    requires WellKeyed(t.fields) && Get(t.fields, k).Some?
    ensures Get(RewriteAll(t, view, oldName, newName).after.fields, k).Some?
    ensures SqlOnly(Get(t.fields, k).value, Get(RewriteAll(t, view, oldName, newName).after.fields, k).value)
    ensures IsMarked(RewriteAll(t, view, oldName, newName).after.fields, k) == IsMarked(t.fields, k)
    ensures IsUnreadable(RewriteAll(t, view, oldName, newName).after.fields, k) == IsUnreadable(t.fields, k)
  {
    var a := RewriteAll(t, view, oldName, newName).after;
    GetMisses(t.fields, k);
    var j :| 0 <= j < |t.fields| && Keys(t.fields)[j] == k;
    assert Keys(a.fields)[j] == k;
    GetAt(t.fields, j);
    GetAt(a.fields, j);
  }

  /** So the loop keeps the primary key consistent. */
  lemma RewriteAllKeepsConsistent(t: Table, view: string, oldName: string, newName: string)
    requires WellKeyed(t.fields) && PkConsistent(t)
    ensures PkConsistent(RewriteAll(t, view, oldName, newName).after)
  {
    var a := RewriteAll(t, view, oldName, newName).after;
    forall k | IsMarked(a.fields, k) ensures k == a.pk && k != "" {
      GetMisses(t.fields, k);
      GetMisses(a.fields, k);
      RewriteAllSqlOnly(t, view, oldName, newName, k);
    }
  }

  // ------------------------------------------------------- setName_safe

  /**
   * `setName_safe` as written: rename, rewrite the references, `removeField`
   * under the old name (which unsets the key when the field is the marked
   * primary key, unmarking it) and `addField` under the new name.
   */
  function RenameAsWritten(t: Table, view: string, oldName: string, newName: string): (r: Run<()>)
    requires WellKeyed(t.fields)
    ensures WellKeyed(r.after.fields)
  {
    var w := RewriteAll(t, view, oldName, newName);
    if w.outcome.Err? then w
    else
      var r := RemoveFieldFrom(w.after, oldName);
      match r.outcome
      case Err(e) => Run(r.after, Err(e))
      case Ok(g) => AddFieldTo(r.after, g.(identifier := newName))
  }

  /**
   * `setName_safe` as intended: the same steps, and when the field was the
   * marked primary key it is made the key again under its new name.
   */
  function RenameField(t: Table, view: string, oldName: string, newName: string): (r: Run<()>)
    requires WellKeyed(t.fields)
    ensures WellKeyed(r.after.fields)
  {
    var w := RewriteAll(t, view, oldName, newName);
    if w.outcome.Err? then w
    else
      var r := RemoveFieldFrom(w.after, oldName);
      match r.outcome
      case Err(e) => Run(r.after, Err(e))
      case Ok(g) =>
        var a := AddFieldTo(r.after, g.(identifier := newName));
        if IsMarked(w.after.fields, oldName) && a.outcome.Ok? then SetPk(a.after, newName) else a
  }

  /** `removeField` of an unmarked field whose `primary_key` reads only pops it, keeping the key. */
  lemma RemoveUnmarked(t: Table, name: string)
    requires WellKeyed(t.fields) && Get(t.fields, name).Some? && !IsMarked(t.fields, name)
    requires !IsUnreadable(t.fields, name)
    ensures RemoveFieldFrom(t, name) == Run(Table(Pop(t.fields, name), t.pk), Ok(Get(t.fields, name).value))
  {
    GetMisses(t.fields, name);
  }

  /** On a consistent table `removeField` of the marked field unmarks it, empties the key and pops it. */
  lemma RemoveMarked(t: Table, name: string)
    requires WellKeyed(t.fields) && PkConsistent(t) && IsMarked(t.fields, name)
    ensures RemoveFieldFrom(t, name).outcome == Ok(Unmark(Get(t.fields, name).value))
    ensures RemoveFieldFrom(t, name).after.pk == ""
    ensures forall k :: k != name ==> Get(RemoveFieldFrom(t, name).after.fields, k) == Get(t.fields, k)
    ensures Get(RemoveFieldFrom(t, name).after.fields, name).None?
  {
    var f := Get(t.fields, name).value;
    Found(t.fields, name);
    GetMisses(t.fields, name);
    assert t.pk == name;
    var fs := Put(t.fields, name, Unmark(f));
    assert UnsetPk(t) == Run(Table(fs, ""), Ok(()));
    PutGet(t.fields, name, Unmark(f));
    PutOthers(t.fields, name, Unmark(f));
    forall k ensures Get(Pop(fs, name), k) == (if k == name then None else Get(fs, k)) {
      PopGet(fs, name, k);
    }
  }

  /** As written, renaming the primary key's dimension leaves the view with no primary key and the dimension unmarked. */
  lemma RenameAsWrittenDropsKey(t: Table, view: string, oldName: string, newName: string)
    requires WellKeyed(t.fields) && PkConsistent(t) && IsMarked(t.fields, oldName)
    ensures t.pk == oldName
    ensures RenameAsWritten(t, view, oldName, newName).outcome.Ok? ==>
              RenameAsWritten(t, view, oldName, newName).after.pk == "" &&
              !IsMarked(RenameAsWritten(t, view, oldName, newName).after.fields, newName)
  {
    var w := RewriteAll(t, view, oldName, newName);
    if w.outcome.Ok? {
      RewriteAllSqlOnly(t, view, oldName, newName, oldName);
      RewriteAllKeepsConsistent(t, view, oldName, newName);
      RemoveMarked(w.after, oldName);
      var r := RemoveFieldFrom(w.after, oldName);
      var g := Unmark(Get(w.after.fields, oldName).value).(identifier := newName);
      AddFieldStores(r.after, g);
    }
  }

  /** The corrected rename of an unmarked field: pop it, store it under the new name, keep the key. */
  lemma RenameUnmarkedSteps(t: Table, view: string, oldName: string, newName: string)
    requires WellKeyed(t.fields) && RewriteAll(t, view, oldName, newName).outcome.Ok?
    requires Get(t.fields, oldName).Some? && !IsMarked(t.fields, oldName) && !IsUnreadable(t.fields, oldName)
    ensures Get(RewriteAll(t, view, oldName, newName).after.fields, oldName).Some?
    ensures var w := RewriteAll(t, view, oldName, newName).after;
            var g := Get(w.fields, oldName).value.(identifier := newName);
            !IsPrimaryKey(g) &&
            RenameField(t, view, oldName, newName) == Run(Table(Put(Pop(w.fields, oldName), newName, g), t.pk), Ok(()))
  {
    var w := RewriteAll(t, view, oldName, newName).after;
    RewriteAllSqlOnly(t, view, oldName, newName, oldName);
    Found(w.fields, oldName);
    RemoveUnmarked(w, oldName);
  }

  /** The corrected rename of the marked field: unmark and pop it, store it under the new name, mark it again as the key. */
  lemma RenameMarkedSteps(t: Table, view: string, oldName: string, newName: string)
    requires WellKeyed(t.fields) && PkConsistent(t) && RewriteAll(t, view, oldName, newName).outcome.Ok?
    requires IsMarked(t.fields, oldName)
    ensures Get(RewriteAll(t, view, oldName, newName).after.fields, oldName).Some?
    ensures var w := RewriteAll(t, view, oldName, newName).after;
            var g := Unmark(Get(w.fields, oldName).value).(identifier := newName);
            var fs := Put(RemoveFieldFrom(w, oldName).after.fields, newName, g);
            RenameField(t, view, oldName, newName) == Run(Table(Put(fs, newName, Mark(g)), newName), Ok(()))
  {
    var w := RewriteAll(t, view, oldName, newName).after;
    RewriteAllSqlOnly(t, view, oldName, newName, oldName);
    RewriteAllKeepsConsistent(t, view, oldName, newName);
    Found(w.fields, oldName);
    RemoveMarked(w, oldName);
    var r := RemoveFieldFrom(w, oldName);
    var g := Unmark(Get(w.fields, oldName).value).(identifier := newName);
    var fs := Put(r.after.fields, newName, g);
    assert AddFieldTo(r.after, g) == Run(Table(fs, ""), Ok(()));
    PutWellKeyed(r.after.fields, newName, g);
    PutGet(r.after.fields, newName, g);
    assert UnsetPk(Table(fs, "")) == Run(Table(fs, ""), Ok(()));
    assert Lookup(fs, newName) == Ok(g);
  }

  /**
   * On a consistent table the corrected rename fails exactly when the loop
   * fails, no field has the old name, or that field's `primary_key` cannot be read.
   */
  lemma RenameFieldOutcome(t: Table, view: string, oldName: string, newName: string)
    requires WellKeyed(t.fields) && PkConsistent(t)
    ensures RenameField(t, view, oldName, newName).outcome.Ok? <==>
              RewriteAll(t, view, oldName, newName).outcome.Ok? && oldName in Keys(t.fields) &&
              !IsUnreadable(t.fields, oldName)
  {
    var w := RewriteAll(t, view, oldName, newName);
    GetMisses(t.fields, oldName);
    if w.outcome.Ok? {
      GetMisses(w.after.fields, oldName);
      if oldName in Keys(t.fields) {
        RewriteAllSqlOnly(t, view, oldName, newName, oldName);
        if IsUnreadable(t.fields, oldName) {
          RemoveFieldOutcome(w.after, oldName);
        } else if IsMarked(t.fields, oldName) {
          RenameMarkedSteps(t, view, oldName, newName);
        } else {
          RenameUnmarkedSteps(t, view, oldName, newName);
        }
      } else {
        RemoveFieldOutcome(w.after, oldName);
      }
    }
  }

  /** What the corrected rename of an unmarked field leaves under each name. */
  lemma RenameUnmarkedGet(t: Table, view: string, oldName: string, newName: string)
    requires WellKeyed(t.fields) && RewriteAll(t, view, oldName, newName).outcome.Ok?
    requires Get(t.fields, oldName).Some? && !IsMarked(t.fields, oldName) && !IsUnreadable(t.fields, oldName)
    ensures Get(RewriteAll(t, view, oldName, newName).after.fields, oldName).Some?
    ensures var w := RewriteAll(t, view, oldName, newName).after;
            var a := RenameField(t, view, oldName, newName).after;
            Get(a.fields, newName) == Some(Get(w.fields, oldName).value.(identifier := newName)) &&
            !IsMarked(a.fields, newName) && a.pk == t.pk &&
            forall k :: k != newName ==> Get(a.fields, k) == if k == oldName then None else Get(w.fields, k)
  {
    var w := RewriteAll(t, view, oldName, newName).after;
    RenameUnmarkedSteps(t, view, oldName, newName);
    var g := Get(w.fields, oldName).value.(identifier := newName);
    var ps := Pop(w.fields, oldName);
    PutGet(ps, newName, g);
    PutOthers(ps, newName, g);
    forall k ensures Get(ps, k) == if k == oldName then None else Get(w.fields, k) {
      PopGet(w.fields, oldName, k);
    }
  }

  /** What the corrected rename of the marked field leaves under each name. */
  lemma RenameMarkedGet(t: Table, view: string, oldName: string, newName: string)
    requires WellKeyed(t.fields) && PkConsistent(t) && RewriteAll(t, view, oldName, newName).outcome.Ok?
    requires IsMarked(t.fields, oldName)
    ensures Get(RewriteAll(t, view, oldName, newName).after.fields, oldName).Some?
    ensures var w := RewriteAll(t, view, oldName, newName).after;
            var a := RenameField(t, view, oldName, newName).after;
            Get(a.fields, newName) == Some(Mark(Unmark(Get(w.fields, oldName).value).(identifier := newName))) &&
            IsMarked(a.fields, newName) && a.pk == newName &&
            forall k :: k != newName ==> Get(a.fields, k) == if k == oldName then None else Get(w.fields, k)
  {
    var w := RewriteAll(t, view, oldName, newName).after;
    RenameMarkedSteps(t, view, oldName, newName);
    RewriteAllSqlOnly(t, view, oldName, newName, oldName);
    RewriteAllKeepsConsistent(t, view, oldName, newName);
    RemoveMarked(w, oldName);
    var f := Get(w.fields, oldName).value;
    Found(w.fields, oldName);
    var rf := RemoveFieldFrom(w, oldName).after.fields;
    var g := Unmark(f).(identifier := newName);
    var fs := Put(rf, newName, g);
    PutGet(fs, newName, Mark(g));
    PutOthers(fs, newName, Mark(g));
    PutOthers(rf, newName, g);
  }

  /**
   * After the corrected rename the field is stored under the new name, with
   * that identifier, its kind and the `sql` the loop gave it.
   */
  lemma RenameFieldStores(t: Table, view: string, oldName: string, newName: string)
    requires WellKeyed(t.fields) && PkConsistent(t) && RenameField(t, view, oldName, newName).outcome.Ok?
    ensures Get(t.fields, oldName).Some? && Get(RewriteAll(t, view, oldName, newName).after.fields, oldName).Some?
    ensures Get(RenameField(t, view, oldName, newName).after.fields, newName).Some?
    ensures Get(RenameField(t, view, oldName, newName).after.fields, newName).value.identifier == newName
    ensures Get(RenameField(t, view, oldName, newName).after.fields, newName).value.kind == Get(t.fields, oldName).value.kind
    ensures SqlOf(Get(RenameField(t, view, oldName, newName).after.fields, newName).value) ==
              SqlOf(Get(RewriteAll(t, view, oldName, newName).after.fields, oldName).value)
  {
    RenameFieldOutcome(t, view, oldName, newName);
    GetMisses(t.fields, oldName);
    RewriteAllSqlOnly(t, view, oldName, newName, oldName);
    if IsMarked(t.fields, oldName) {
      RenameMarkedStores(t, view, oldName, newName);
    } else {
      RenameUnmarkedGet(t, view, oldName, newName);
    }
  }

  /** The marked field, marked again under its new name, keeps its kind and its `sql`. */
  lemma RenameMarkedStores(t: Table, view: string, oldName: string, newName: string)
    requires WellKeyed(t.fields) && PkConsistent(t) && RewriteAll(t, view, oldName, newName).outcome.Ok?
    requires IsMarked(t.fields, oldName)
    ensures Get(RewriteAll(t, view, oldName, newName).after.fields, oldName).Some?
    ensures var f := Get(RewriteAll(t, view, oldName, newName).after.fields, oldName).value;
            var g := Get(RenameField(t, view, oldName, newName).after.fields, newName);
            g.Some? && g.value.identifier == newName && g.value.kind == f.kind && SqlOf(g.value) == SqlOf(f)
  {
    var w := RewriteAll(t, view, oldName, newName).after;
    RenameMarkedGet(t, view, oldName, newName);
    var f := Get(w.fields, oldName).value;
    Found(w.fields, oldName);
    var u := Unmark(f).(identifier := newName);
    assert Get(Mark(u).props, "sql") == Get(f.props, "sql");
  }

  /** The old name is free afterwards, and no other field differs from what the loop left. */
  lemma RenameFieldKeepsOthers(t: Table, view: string, oldName: string, newName: string)
    requires WellKeyed(t.fields) && PkConsistent(t) && RenameField(t, view, oldName, newName).outcome.Ok?
    ensures oldName != newName ==> Get(RenameField(t, view, oldName, newName).after.fields, oldName).None?
    ensures forall k :: k != oldName && k != newName ==>
              Get(RenameField(t, view, oldName, newName).after.fields, k) == Get(RewriteAll(t, view, oldName, newName).after.fields, k)
  {
    RenameFieldOutcome(t, view, oldName, newName);
    GetMisses(t.fields, oldName);
    if IsMarked(t.fields, oldName) {
      RenameMarkedGet(t, view, oldName, newName);
    } else {
      RenameUnmarkedGet(t, view, oldName, newName);
    }
  }

  /**
   * The corrected rename keeps the primary key: the marked dimension is
   * the key again under its new name, any other rename leaves the key as
   * it was, and at most one dimension stays marked.
   */
  lemma RenameFieldKeepsKey(t: Table, view: string, oldName: string, newName: string)
    requires WellKeyed(t.fields) && PkConsistent(t) && newName != ""
    requires RenameField(t, view, oldName, newName).outcome.Ok?
    ensures IsMarked(t.fields, oldName) ==>
              RenameField(t, view, oldName, newName).after.pk == newName &&
              IsMarked(RenameField(t, view, oldName, newName).after.fields, newName)
    ensures !IsMarked(t.fields, oldName) ==> RenameField(t, view, oldName, newName).after.pk == t.pk
    ensures PkConsistent(RenameField(t, view, oldName, newName).after)
  {
    var w := RewriteAll(t, view, oldName, newName).after;
    var a := RenameField(t, view, oldName, newName).after;
    RenameFieldOutcome(t, view, oldName, newName);
    RewriteAllKeepsConsistent(t, view, oldName, newName);
    GetMisses(t.fields, oldName);
    RewriteAllSqlOnly(t, view, oldName, newName, oldName);
    if IsMarked(t.fields, oldName) {
      RenameMarkedGet(t, view, oldName, newName);
    } else {
      RenameUnmarkedGet(t, view, oldName, newName);
    }
    MovedConsistent(w, a, oldName, newName);
  }

  /**
   * A table that differs from a consistent one only by moving `oldName` to
   * `newName` is consistent when the new name carries the key whenever it is marked.
   */
  lemma MovedConsistent(w: Table, a: Table, oldName: string, newName: string)
    requires PkConsistent(w) && newName != ""
    requires forall k :: k != newName ==> Get(a.fields, k) == if k == oldName then None else Get(w.fields, k)
    requires IsMarked(a.fields, newName) ==> a.pk == newName
    requires a.pk == w.pk || w.pk == oldName
    ensures PkConsistent(a)
  {
    forall k | IsMarked(a.fields, k) ensures k == a.pk && k != "" {
      if k != newName {
        assert IsMarked(w.fields, k);
      }
    }
  }

  /**
   * After the corrected rename no field's `sql` refers to the old name in
   * either form (when the names are plain: no `$`, braces or dots).
   */
  lemma RenameFieldClears(t: Table, view: string, oldName: string, newName: string, k: string)
    requires WellKeyed(t.fields) && PkConsistent(t) && RenameField(t, view, oldName, newName).outcome.Ok?
    requires PlainName(view) && PlainName(oldName) && PlainName(newName) && oldName != newName
    requires Get(RenameField(t, view, oldName, newName).after.fields, k).Some?
    ensures SqlText(Get(RenameField(t, view, oldName, newName).after.fields, k).value).Ok?
    ensures !Contains(SqlText(Get(RenameField(t, view, oldName, newName).after.fields, k).value).value, ShortRef(oldName))
    ensures !Contains(SqlText(Get(RenameField(t, view, oldName, newName).after.fields, k).value).value, FullRef(view, oldName))
  {
    var w := RewriteAll(t, view, oldName, newName).after;
    RenameFieldStores(t, view, oldName, newName);
    RenameFieldKeepsOthers(t, view, oldName, newName);
    GetMisses(t.fields, oldName);
    if k == newName {
      RewriteAllClears(t, view, oldName, newName, oldName);
    } else {
      GetMisses(w.fields, k);
      RewriteAllClears(t, view, oldName, newName, k);
    }
  }

  /** A view `users` whose primary key is the dimension `id`. */
  function KeyedUsers(): Table
  {
    Table([("id", Field(Dimension, "id", "", [("primary_key", Str("yes")), ("sql", Str("${TABLE}.id"))], ""))], "id")
  }

  /** `users` is consistent, keyed by its marked `id`, and the reference loop of a rename of `id` succeeds on it. */
  lemma KeyedUsersRewrites()
    ensures WellKeyed(KeyedUsers().fields) && PkConsistent(KeyedUsers()) && IsMarked(KeyedUsers().fields, "id")
    ensures RewriteAll(KeyedUsers(), "users", "id", "user_id").outcome.Ok?
  {
    var t := KeyedUsers();
    var d := t.fields[0].1;
    assert "primary_key" !in NONUNIQUE_PROPERTIES && "sql" !in NONUNIQUE_PROPERTIES;
    assert WellKeyed(t.fields);
    assert Get(d.props, "sql") == Some(Str("${TABLE}.id"));
    SqlShape();
    assert SqlText(d).Ok?;
    assert Rewritten(d, "users", "id", "user_id").Ok?;
    RewriteFromDone(t, 0, "users", "id", "user_id");
    assert PkConsistent(t) by {
      forall k | IsMarked(t.fields, k) ensures k == t.pk && k != "" {
      }
    }
  }

  /** Renaming `id` to `user_id` as written succeeds and leaves `users` without a primary key. */
  lemma RenameAsWrittenExample()
    ensures WellKeyed(KeyedUsers().fields)
    ensures RenameAsWritten(KeyedUsers(), "users", "id", "user_id").outcome.Ok?
    ensures RenameAsWritten(KeyedUsers(), "users", "id", "user_id").after.pk == ""
  {
    var t := KeyedUsers();
    KeyedUsersRewrites();
    var w := RewriteAll(t, "users", "id", "user_id");
    RewriteAllSqlOnly(t, "users", "id", "user_id", "id");
    RewriteAllKeepsConsistent(t, "users", "id", "user_id");
    RemoveMarked(w.after, "id");
    RenameAsWrittenDropsKey(t, "users", "id", "user_id");
  }
}

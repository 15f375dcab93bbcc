/**
 * A view's field registry (`View` in lookml/lookml.py): fields keyed by
 * their names, the primary-key bookkeeping that keeps at most one dimension
 * marked `primary_key: yes`, and the operations built on them.
 *
 * The registry and its key are first given as values (`Table`) with one
 * function per operation, saying what the operation leaves behind and
 * whether it returned or raised; the `View` class below performs the same
 * steps on its own fields and is proved to agree with those functions.
 */
module Views {
  import opened Results
  import opened ODict
  import opened Values
  import opened Config
  import opened Text
  import opened Order
  import opened Props
  import opened Base
  import opened Fields

  // ------------------------------------------------------- the field table

  /** A view's fields, in insertion order, and the name of its primary key (`''` for none). */
  datatype Table = Table(fields: Pairs<Field>, pk: string)

  /** The state an operation leaves behind, and what it returned or raised. */
  datatype Run<T> = Run(after: Table, outcome: Result<T>)

  /** Every field is stored under its own name and keeps its dictionary regular. */
  ghost predicate WellKeyed(fs: Pairs<Field>)
  {
    UniqueKeys(fs) && forall i :: 0 <= i < |fs| ==> fs[i].1.identifier == fs[i].0 && ValidField(fs[i].1)
  }

  lemma Found(fs: Pairs<Field>, k: string)
    requires WellKeyed(fs) && Get(fs, k).Some?
    ensures Get(fs, k).value.identifier == k && ValidField(Get(fs, k).value)
  {
    var i :| 0 <= i < |fs| && fs[i] == (k, Get(fs, k).value);
  }

  lemma PutWellKeyed(fs: Pairs<Field>, k: string, f: Field)
    requires WellKeyed(fs) && ValidField(f) && f.identifier == k
    ensures WellKeyed(Put(fs, k, f))
  {
    PutUnique(fs, k, f);
    var r := Put(fs, k, f);
    forall i | 0 <= i < |r| ensures r[i].1.identifier == r[i].0 && ValidField(r[i].1) {
      assert r[i] in r;
    }
  }

  lemma PopWellKeyed(fs: Pairs<Field>, k: string)
    requires WellKeyed(fs)
    ensures WellKeyed(Pop(fs, k))
  {
    PopUnique(fs, k);
    var r := Pop(fs, k);
    forall i | 0 <= i < |r| ensures r[i].1.identifier == r[i].0 && ValidField(r[i].1) {
      assert r[i] in r;
    }
  }

  /** `field(name)`: the field stored under `name`, or a `KeyError`. */
  function Lookup(fs: Pairs<Field>, name: string): (r: Result<Field>)
    ensures r.Err? <==> name !in Keys(fs)
    ensures r.Err? ==> r.error == KeyError
    ensures r.Ok? ==> Get(fs, name) == Some(r.value)
  {
    GetMisses(fs, name);
    match Get(fs, name)
    case None => Err(KeyError)
    case Some(f) => Ok(f)
  }

  /** The field stored under `k` is a dimension marked `primary_key: yes`. */
  predicate IsMarked(fs: Pairs<Field>, k: string)
  {
    Get(fs, k).Some? && IsPrimaryKey(Get(fs, k).value)
  }

  /** The field stored under `k` is a dimension whose `primary_key` `isPrimaryKey` cannot read. */
  predicate IsUnreadable(fs: Pairs<Field>, k: string)
  {
    Get(fs, k).Some? && PkUnreadable(Get(fs, k).value)
  }

  /** Every marked dimension is the one a non-empty primary key names: so at most one is marked. */
  ghost predicate PkConsistent(t: Table)
  {
    forall k :: IsMarked(t.fields, k) ==> k == t.pk && k != ""
  }

  /** The primary key is empty or names a stored field. */
  predicate PkResolves(t: Table)
  {
    t.pk == "" || t.pk in Keys(t.fields)
  }

  /** `getPrimaryKey`: the field the primary key names; nothing when the key is empty. */
  function PrimaryKeyField(t: Table): (r: Result<Option<Field>>)
    ensures r.Err? <==> !PkResolves(t)
    ensures t.pk == "" ==> r == Ok(None)
    ensures t.pk != "" && r.Ok? ==> r.value.Some? && Get(t.fields, t.pk) == Some(r.value.value)
  {
    if t.pk == "" then Ok(None)
    else
      var f :- Lookup(t.fields, t.pk);
      Ok(Some(f))
  }

  /** `unSetPrimaryKey` with `unSetProperty` corrected: unmark the dimension the key names, then empty the key. As written, the unmarking raises `AttributeError`. */
  function UnsetPk(t: Table): (r: Run<()>)
    requires WellKeyed(t.fields)
    ensures WellKeyed(r.after.fields) && Keys(r.after.fields) == Keys(t.fields)
  {
    match PrimaryKeyField(t)
    case Err(e) => Run(t, Err(e))
    case Ok(None) => Run(Table(t.fields, ""), Ok(()))
    case Ok(Some(f)) =>
      Found(t.fields, t.pk);
      PutWellKeyed(t.fields, t.pk, Unmark(f));
      GetMisses(t.fields, t.pk);
      PutKeys(t.fields, t.pk, Unmark(f));
      var fs := if f.kind == Dimension then Put(t.fields, t.pk, Unmark(f)) else t.fields;
      Run(Table(fs, ""), Ok(()))
  }

  /**
   * `setPrimaryKey(name)`: unset the current key, look the field up, and
   * when it is a dimension make it the key and mark it.
   */
  function SetPk(t: Table, name: string): (r: Run<()>)
    requires WellKeyed(t.fields)
    ensures WellKeyed(r.after.fields) && Keys(r.after.fields) == Keys(t.fields)
  {
    var u := UnsetPk(t);
    if u.outcome.Err? then u
    else
      match Lookup(u.after.fields, name)
      case Err(e) => Run(u.after, Err(e))
      case Ok(f) =>
        if f.kind == Dimension then
          Found(u.after.fields, name);
          PutWellKeyed(u.after.fields, name, Mark(f));
          GetMisses(u.after.fields, name);
          PutKeys(u.after.fields, name, Mark(f));
          Run(Table(Put(u.after.fields, name, Mark(f)), f.identifier), Ok(()))
        else u
  }

  /**
   * `addField`: store the field under its name; then ask a dimension
   * `isPrimaryKey()`, which may raise, and make a marked one the key.
   */
  function AddFieldTo(t: Table, f: Field): (r: Run<()>)
    requires WellKeyed(t.fields) && ValidField(f)
    ensures WellKeyed(r.after.fields)
    ensures Keys(r.after.fields) == Keys(Put(t.fields, f.identifier, f))
  {
    PutWellKeyed(t.fields, f.identifier, f);
    var t1 := Table(Put(t.fields, f.identifier, f), t.pk);
    if f.kind != Dimension then Run(t1, Ok(()))
    else
      match CheckPrimaryKey(f)
      case Err(e) => Run(t1, Err(e))
      case Ok(marked) => if marked then SetPk(t1, f.identifier) else Run(t1, Ok(()))
  }

  /**
   * `removeField(name)`: look the field up, ask a dimension `isPrimaryKey()`
   * (which may raise before anything changes), unset the key first when it
   * is the marked dimension, then pop it and return what was stored.
   */
  function RemoveFieldFrom(t: Table, name: string): (r: Run<Field>)
    requires WellKeyed(t.fields)
    ensures WellKeyed(r.after.fields)
    ensures r.outcome.Ok? ==> ValidField(r.outcome.value)
  {
    match Lookup(t.fields, name)
    case Err(e) => Run(t, Err(e))
    case Ok(f) =>
      if PkUnreadable(f) then Run(t, Err(CheckPrimaryKey(f).error))
      else
        var u := if IsPrimaryKey(f) then UnsetPk(t) else Run(t, Ok(()));
        if u.outcome.Err? then Run(u.after, Err(u.outcome.error))
        else
          GetMisses(u.after.fields, name);
          Found(u.after.fields, name);
          PopWellKeyed(u.after.fields, name);
          Run(Table(Pop(u.after.fields, name), u.after.pk), Ok(Get(u.after.fields, name).value))
  }

  // ------------------------------------------------- primary-key lemmas

  lemma MarkedAfterPut(fs: Pairs<Field>, k: string, f: Field)
    ensures IsMarked(Put(fs, k, f), k) == IsPrimaryKey(f)
    ensures forall k' :: k' != k ==> IsMarked(Put(fs, k, f), k') == IsMarked(fs, k')
  {
    PutGet(fs, k, f);
    PutOthers(fs, k, f);
  }

  /**
   * `unSetPrimaryKey` raises exactly when the key names no field, and then
   * changes nothing; otherwise the key is empty, only the field it named
   * changes, and that field is no longer marked. On a consistent table no
   * field is marked afterwards.
   */
  lemma UnsetPkEffect(t: Table)
    requires WellKeyed(t.fields)
    ensures UnsetPk(t).outcome.Err? <==> !PkResolves(t)
    ensures UnsetPk(t).outcome.Err? ==> UnsetPk(t).after == t
    ensures UnsetPk(t).outcome.Ok? ==> UnsetPk(t).after.pk == ""
    ensures UnsetPk(t).outcome.Ok? ==> forall k :: k != t.pk ==> Get(UnsetPk(t).after.fields, k) == Get(t.fields, k)
    ensures UnsetPk(t).outcome.Ok? && t.pk != "" ==> !IsMarked(UnsetPk(t).after.fields, t.pk)
    ensures UnsetPk(t).outcome.Ok? && PkConsistent(t) ==> forall k :: !IsMarked(UnsetPk(t).after.fields, k)
  {
    if PkResolves(t) && t.pk != "" {
      GetMisses(t.fields, t.pk);
      var g := Get(t.fields, t.pk).value;
      Found(t.fields, t.pk);
      if g.kind == Dimension {
        assert UnsetPk(t).after.fields == Put(t.fields, t.pk, Unmark(g));
        MarkedAfterPut(t.fields, t.pk, Unmark(g));
        PutOthers(t.fields, t.pk, Unmark(g));
      } else {
        assert UnsetPk(t).after.fields == t.fields;
      }
    }
  }

  /** The field stored under `name` keeps its kind when the key is unset. */
  lemma UnsetPkKeepsKinds(t: Table, name: string)
    requires WellKeyed(t.fields) && UnsetPk(t).outcome.Ok? && Get(t.fields, name).Some?
    ensures Get(UnsetPk(t).after.fields, name).Some?
    ensures Get(UnsetPk(t).after.fields, name).value.kind == Get(t.fields, name).value.kind
  {
    UnsetPkEffect(t);
    GetMisses(t.fields, name);
    GetMisses(UnsetPk(t).after.fields, name);
    if name == t.pk {
      var g := Get(t.fields, t.pk).value;
      Found(t.fields, t.pk);
      if g.kind == Dimension {
        PutGet(t.fields, t.pk, Unmark(g));
      }
    }
  }

  /**
   * `setPrimaryKey(name)` succeeds exactly when the current key resolves and
   * `name` is a field. A dimension then becomes the key and is marked; any
   * other kind of field leaves the key empty. Only the old key's field and
   * the named field change, and a consistent table stays consistent.
   */
  lemma SetPkEffect(t: Table, name: string)
    requires WellKeyed(t.fields)
    ensures SetPk(t, name).outcome.Ok? <==> PkResolves(t) && name in Keys(t.fields)
    ensures SetPk(t, name).outcome.Ok? && Get(t.fields, name).Some? && Get(t.fields, name).value.kind == Dimension ==>
              SetPk(t, name).after.pk == name && IsMarked(SetPk(t, name).after.fields, name)
    ensures SetPk(t, name).outcome.Ok? && Get(t.fields, name).Some? && Get(t.fields, name).value.kind != Dimension ==>
              SetPk(t, name).after.pk == ""
    ensures SetPk(t, name).outcome.Ok? ==>
              forall k :: k != name && k != t.pk ==> Get(SetPk(t, name).after.fields, k) == Get(t.fields, k)
  {
    var r := SetPk(t, name);
    var u := UnsetPk(t);
    UnsetPkEffect(t);
    GetMisses(t.fields, name);
    if u.outcome.Ok? && name in Keys(t.fields) {
      UnsetPkKeepsKinds(t, name);
      var f := Get(u.after.fields, name).value;
      Found(u.after.fields, name);
      if f.kind == Dimension {
        var fs := Put(u.after.fields, name, Mark(f));
        assert r == Run(Table(fs, name), Ok(()));
        MarkedAfterPut(u.after.fields, name, Mark(f));
        PutOthers(u.after.fields, name, Mark(f));
      } else {
        assert r == u;
      }
    }
  }

  /**
   * `setPrimaryKey(name)` leaves exactly one marked dimension, the one the
   * key names, whenever before it every marked dimension other than `name`
   * was the old key: so at most one dimension is ever marked.
   */
  lemma SetPkConsistent(t: Table, name: string)
    requires WellKeyed(t.fields) && name != ""
    requires forall k :: IsMarked(t.fields, k) && k != name ==> k == t.pk && k != ""
    ensures SetPk(t, name).outcome.Ok? ==> PkConsistent(SetPk(t, name).after)
  {
    var u := UnsetPk(t);
    if u.outcome.Ok? {
      UnsetLeavesOnly(t, name);
      GetMisses(u.after.fields, name);
      if name in Keys(u.after.fields) {
        var f := Get(u.after.fields, name).value;
        Found(u.after.fields, name);
        if f.kind == Dimension {
          assert SetPk(t, name) == Run(Table(Put(u.after.fields, name, Mark(f)), name), Ok(()));
          MarkedAfterPut(u.after.fields, name, Mark(f));
        } else {
          assert SetPk(t, name) == u;
        }
      }
    }
  }

  /** Unsetting the key unmarks the old key's dimension, so only `name` can still be marked. */
  lemma UnsetLeavesOnly(t: Table, name: string)
    requires WellKeyed(t.fields)
    requires forall k :: IsMarked(t.fields, k) && k != name ==> k == t.pk && k != ""
    ensures UnsetPk(t).outcome.Ok? ==> forall k :: k != name ==> !IsMarked(UnsetPk(t).after.fields, k)
  {
    if t.pk != "" && t.pk in Keys(t.fields) {
      GetMisses(t.fields, t.pk);
      var g := Get(t.fields, t.pk).value;
      Found(t.fields, t.pk);
      if g.kind == Dimension {
        assert UnsetPk(t).after.fields == Put(t.fields, t.pk, Unmark(g));
        MarkedAfterPut(t.fields, t.pk, Unmark(g));
      } else {
        assert UnsetPk(t).after.fields == t.fields;
      }
    }
  }

  /** On a consistent table `setPrimaryKey` keeps it consistent. */
  lemma SetPkKeepsConsistent(t: Table, name: string)
    requires WellKeyed(t.fields) && PkConsistent(t) && name != ""
    ensures SetPk(t, name).outcome.Ok? ==> PkConsistent(SetPk(t, name).after)
  {
    SetPkConsistent(t, name);
  }

  /**
   * `addField(f)` raises only for a dimension whose `primary_key` cannot be
   * read, or for a marked dimension whose arrival finds a key that no longer
   * resolves; either way the field has already been stored.
   */
  lemma AddFieldOutcome(t: Table, f: Field)
    requires WellKeyed(t.fields) && ValidField(f)
    ensures AddFieldTo(t, f).outcome.Err? <==>
              PkUnreadable(f) || (IsPrimaryKey(f) && !PkResolves(Table(Put(t.fields, f.identifier, f), t.pk)))
    ensures PkUnreadable(f) ==> AddFieldTo(t, f).outcome == Err(InvalidValue)
    ensures AddFieldTo(t, f).outcome.Err? ==> AddFieldTo(t, f).after == Table(Put(t.fields, f.identifier, f), t.pk)
  {
    var t1 := Table(Put(t.fields, f.identifier, f), t.pk);
    PutWellKeyed(t.fields, f.identifier, f);
    PutGet(t.fields, f.identifier, f);
    if IsPrimaryKey(f) {
      GetMisses(t1.fields, f.identifier);
      SetPkEffect(t1, f.identifier);
      UnsetPkEffect(t1);
    }
  }

  /**
   * After `addField(f)` the field is found under its name: an unmarked field
   * leaves the key as it was, a marked dimension becomes the key and stays marked.
   */
  lemma AddFieldStores(t: Table, f: Field)
    requires WellKeyed(t.fields) && ValidField(f)
    ensures !IsPrimaryKey(f) ==>
              AddFieldTo(t, f).after.pk == t.pk && Get(AddFieldTo(t, f).after.fields, f.identifier) == Some(f)
    ensures AddFieldTo(t, f).outcome.Ok? && IsPrimaryKey(f) ==>
              AddFieldTo(t, f).after.pk == f.identifier && IsMarked(AddFieldTo(t, f).after.fields, f.identifier)
  {
    var t1 := Table(Put(t.fields, f.identifier, f), t.pk);
    PutWellKeyed(t.fields, f.identifier, f);
    PutGet(t.fields, f.identifier, f);
    if IsPrimaryKey(f) {
      GetMisses(t1.fields, f.identifier);
      SetPkEffect(t1, f.identifier);
    }
  }

  /** `addField(f)` changes no field other than `f`'s name and the old key's dimension. */
  lemma AddFieldKeepsOthers(t: Table, f: Field)
    requires WellKeyed(t.fields) && ValidField(f)
    ensures forall k :: k != f.identifier && k != t.pk ==> Get(AddFieldTo(t, f).after.fields, k) == Get(t.fields, k)
  {
    var t1 := Table(Put(t.fields, f.identifier, f), t.pk);
    PutWellKeyed(t.fields, f.identifier, f);
    PutOthers(t.fields, f.identifier, f);
    if IsPrimaryKey(f) {
      SetPkEffect(t1, f.identifier);
      UnsetPkEffect(t1);
    }
  }

  /** On a consistent table `addField` keeps at most one dimension marked, the one the key names. */
  lemma AddFieldKeepsConsistent(t: Table, f: Field)
    requires WellKeyed(t.fields) && ValidField(f) && PkConsistent(t) && f.identifier != ""
    ensures AddFieldTo(t, f).outcome.Ok? ==> PkConsistent(AddFieldTo(t, f).after)
  {
    var t1 := Table(Put(t.fields, f.identifier, f), t.pk);
    PutWellKeyed(t.fields, f.identifier, f);
    MarkedAfterPut(t.fields, f.identifier, f);
    if IsPrimaryKey(f) {
      SetPkConsistent(t1, f.identifier);
    } else if !PkUnreadable(f) {
      assert AddFieldTo(t, f) == Run(t1, Ok(()));
    }
  }

  /**
   * `removeField(name)` raises exactly for a missing name, for a dimension
   * whose `primary_key` cannot be read, or for the marked dimension when the
   * key does not resolve; in every case nothing changes.
   */
  lemma RemoveFieldOutcome(t: Table, name: string)
    requires WellKeyed(t.fields)
    ensures RemoveFieldFrom(t, name).outcome.Err? <==>
              name !in Keys(t.fields) || IsUnreadable(t.fields, name) || (IsMarked(t.fields, name) && !PkResolves(t))
    ensures IsUnreadable(t.fields, name) ==> RemoveFieldFrom(t, name).outcome == Err(InvalidValue)
    ensures RemoveFieldFrom(t, name).outcome.Err? ==> RemoveFieldFrom(t, name).after == t
  {
    GetMisses(t.fields, name);
    UnsetPkEffect(t);
  }

  /**
   * A successful `removeField(name)` returns the field stored under `name`
   * and leaves the name unbound; removing the marked dimension empties the
   * key, removing any other field keeps it.
   */
  lemma RemoveFieldTakes(t: Table, name: string)
    requires WellKeyed(t.fields)
    requires RemoveFieldFrom(t, name).outcome.Ok?
    ensures name in Keys(t.fields) && !IsUnreadable(t.fields, name)
    ensures Get(RemoveFieldFrom(t, name).after.fields, name).None?
    ensures RemoveFieldFrom(t, name).outcome.value.identifier == name
    ensures !IsMarked(t.fields, name) ==>
              RemoveFieldFrom(t, name).after.pk == t.pk && Get(t.fields, name) == Some(RemoveFieldFrom(t, name).outcome.value)
    ensures IsMarked(t.fields, name) ==> RemoveFieldFrom(t, name).after.pk == ""
  {
    GetMisses(t.fields, name);
    var f := Get(t.fields, name).value;
    var u := if IsPrimaryKey(f) then UnsetPk(t) else Run(t, Ok(()));
    UnsetPkEffect(t);
    GetMisses(u.after.fields, name);
    Found(u.after.fields, name);
    PopGet(u.after.fields, name, name);
  }

  /** `removeField(name)` changes no field other than `name` and the old key's dimension. */
  lemma RemoveFieldKeepsOthers(t: Table, name: string)
    requires WellKeyed(t.fields)
    ensures RemoveFieldFrom(t, name).outcome.Ok? ==>
              forall k :: k != name && k != t.pk ==> Get(RemoveFieldFrom(t, name).after.fields, k) == Get(t.fields, k)
  {
    GetMisses(t.fields, name);
    if name in Keys(t.fields) {
      var f := Get(t.fields, name).value;
      var u := if IsPrimaryKey(f) then UnsetPk(t) else Run(t, Ok(()));
      UnsetPkEffect(t);
      if u.outcome.Ok? {
        forall k | k != name ensures Get(Pop(u.after.fields, name), k) == Get(u.after.fields, k) {
          PopGet(u.after.fields, name, k);
        }
      }
    }
  }

  /** On a consistent table `removeField` keeps it consistent. */
  lemma RemoveFieldKeepsConsistent(t: Table, name: string)
    requires WellKeyed(t.fields) && PkConsistent(t)
    ensures RemoveFieldFrom(t, name).outcome.Ok? ==> PkConsistent(RemoveFieldFrom(t, name).after)
  {
    GetMisses(t.fields, name);
    if name in Keys(t.fields) {
      var f := Get(t.fields, name).value;
      var u := if IsPrimaryKey(f) then UnsetPk(t) else Run(t, Ok(()));
      UnsetPkEffect(t);
      if u.outcome.Ok? && !PkUnreadable(f) {
        var fs := Pop(u.after.fields, name);
        assert RemoveFieldFrom(t, name).after == Table(fs, u.after.pk);
        if IsPrimaryKey(f) {
          assert IsMarked(t.fields, name);
          forall k ensures !IsMarked(fs, k) {
            PopGet(u.after.fields, name, k);
            assert !IsMarked(u.after.fields, k);
          }
        } else {
          forall k | IsMarked(fs, k) ensures k == u.after.pk && k != "" {
            PopGet(u.after.fields, name, k);
            assert IsMarked(t.fields, k);
          }
        }
      }
    }
  }
}

/**
 * The `File` object of lookml/lookml.py: how a file's `base_name`,
 * `filetype` and `path` follow from its name, and the two registries of
 * views and explores it holds, keyed by name (a later entry of the same
 * name replaces the earlier one, `remove` pops and fails on a missing name).
 */
module Files {
  import opened Results
  import opened ODict
  import opened Values
  import opened Text
  import opened Props
  import opened ViewBind
  import opened ViewObjects
  import opened Explores

  // ------------------------------------------------------------- names

  /** `s.split(sep)`: the pieces between separators; there is always at least one. */
  function Split(s: string, sep: char): (r: seq<string>)
    ensures |r| >= 1
    ensures forall i :: 0 <= i < |r| ==> sep !in r[i]
    decreases |s|
  {
    if s == [] then [""]
    else if s[0] == sep then [""] + Split(s[1..], sep)
    else
      var rest := Split(s[1..], sep);
      [[s[0]] + rest[0]] + rest[1..]
  }

  /** Text without the separator is one piece. */
  lemma {:induction false} SplitPlain(s: string, sep: char)
    requires sep !in s
    ensures Split(s, sep) == [s]
    decreases |s|
  {
    if s != [] {
      SplitPlain(s[1..], sep);
      assert [s[0]] + s[1..] == s;
    }
  }

  /** Splitting around one separator splits each side. */
  lemma {:induction false} SplitConcat(a: string, b: string, sep: char)
    ensures Split(a + [sep] + b, sep) == Split(a, sep) + Split(b, sep)
    decreases |a|
  {
    if a == [] {
      assert a + [sep] + b == [sep] + b;
      assert ([sep] + b)[1..] == b;
    } else {
      assert (a + [sep] + b)[0] == a[0];
      assert (a + [sep] + b)[1..] == a[1..] + [sep] + b;
      SplitConcat(a[1..], b, sep);
    }
  }

  /** Joining the pieces with the separator gives the text back. */
  lemma {:induction false} JoinSplit(s: string, sep: char)
    ensures Text.Join([sep], Split(s, sep)) == s
    decreases |s|
  {
    if s != [] {
      JoinSplit(s[1..], sep);
      var rest := Split(s[1..], sep);
      if s[0] == sep {
        assert Text.Join([sep], [""] + rest) == "" + [sep] + Text.Join([sep], rest) by {
          assert ([""] + rest)[1..] == rest;
        }
        assert s == [sep] + s[1..];
      } else {
        var r := Split(s, sep);
        assert r[0] == [s[0]] + rest[0] && r[1..] == rest[1..];
        if |rest| == 1 {
          assert Text.Join([sep], r) == r[0];
          assert Text.Join([sep], rest) == rest[0];
        } else {
          assert Text.Join([sep], r) == r[0] + [sep] + Text.Join([sep], r[1..]);
          assert Text.Join([sep], rest) == rest[0] + [sep] + Text.Join([sep], rest[1..]);
        }
        assert s == [s[0]] + s[1..];
      }
    }
  }

  /** Splitting pieces joined with the separator gives the pieces back. */
  lemma {:induction false} SplitJoin(parts: seq<string>, sep: char)
    requires |parts| >= 1 && forall i :: 0 <= i < |parts| ==> sep !in parts[i]
    ensures Split(Text.Join([sep], parts), sep) == parts
    decreases |parts|
  {
    SplitPlain(parts[0], sep);
    if |parts| > 1 {
      SplitJoin(parts[1..], sep);
      SplitConcat(parts[0], Text.Join([sep], parts[1..]), sep);
      assert Text.Join([sep], parts) == parts[0] + [sep] + Text.Join([sep], parts[1..]);
      assert parts == [parts[0]] + parts[1..];
    }
  }

  predicate EndsWith(s: string, p: string)
  {
    |p| <= |s| && s[|s| - |p|..] == p
  }

  /**
   * `base_name` of a file found on disk: the name itself when it has no
   * dot, the part before the dot when it has one, and otherwise everything
   * before the last two dot-separated parts.
   */
  function BaseName(name: string): string
  {
    var parts := Split(name, '.');
    if |parts| <= 1 then name
    else if |parts| == 2 then parts[0]
    else Text.Join(".", parts[..|parts| - 2])
  }

  /**
   * The `filetype` rule: a name ending in `lkml` has as its type the
   * next-to-last dot-separated part (an `IndexError` when there is no dot);
   * any other name is refused.
   */
  function FileType(name: string): (r: Result<string>)
    ensures r.Ok? ==> '.' !in r.value
  {
    if !EndsWith(name, "lkml") then Err(UnsupportedFilename)
    else
      var parts := Split(name, '.');
      if |parts| < 2 then Err(IndexError) else Ok(parts[|parts| - 2])
  }

  /** A name is accepted exactly when it ends in `lkml` and has a dot. */
  lemma FileTypeAccepts(name: string)
    ensures FileType(name).Ok? <==> EndsWith(name, "lkml") && '.' in name
    ensures !EndsWith(name, "lkml") ==> FileType(name) == Err(UnsupportedFilename)
  {
    if '.' !in name {
      SplitPlain(name, '.');
    } else {
      var i :| 0 <= i < |name| && name[i] == '.';
      assert name == name[..i] + ['.'] + name[i + 1..];
      SplitConcat(name[..i], name[i + 1..], '.');
    }
  }

  /**
   * The names the source generates for a view or an explore,
   * `identifier + '.view.lkml'` and `identifier + '.model.lkml'`, have that
   * file type and give the identifier back as their base name.
   */
  lemma GeneratedNames(identifier: string, kind: string)
    requires '.' !in kind
    ensures FileType(identifier + "." + kind + ".lkml") == Ok(kind)
    ensures BaseName(identifier + "." + kind + ".lkml") == identifier
  {
    var name := identifier + "." + kind + ".lkml";
    GeneratedParts(identifier, kind);
    var parts := Split(name, '.');
    assert parts[..|parts| - 2] == Split(identifier, '.');
    JoinSplit(identifier, '.');
  }

  /** The dot-separated parts of `<identifier>.<kind>.lkml`, which ends in `lkml`. */
  lemma GeneratedParts(identifier: string, kind: string)
    requires '.' !in kind
    ensures Split(identifier + "." + kind + ".lkml", '.') == Split(identifier, '.') + [kind, "lkml"]
    ensures EndsWith(identifier + "." + kind + ".lkml", "lkml")
  {
    var ext := "lkml";
    var name := identifier + "." + kind + ".lkml";
    assert name == identifier + ['.'] + (kind + ['.'] + ext);
    SplitTwo(identifier, kind, ext, '.');
    assert name[|name| - 4..] == ext;
  }

  /** Two separators after a text, with plain parts between and after them. */
  lemma SplitTwo(a: string, k: string, e: string, sep: char)
    requires sep !in k && sep !in e
    ensures Split(a + [sep] + (k + [sep] + e), sep) == Split(a, sep) + [k, e]
  {
    SplitConcat(a, k + [sep] + e, sep);
    SplitConcat(k, e, sep);
    SplitPlain(k, sep);
    SplitPlain(e, sep);
  }

  /** `setFolder`: the folder and the name joined by a slash, unless the folder already ends in one. */
  function FolderPath(folder: string, name: string): string
  {
    if EndsWith(folder, "/") then folder + name else folder + "/" + name
  }

  /** The path is the folder without its trailing slash, one slash, and the name. */
  lemma FolderPathOneSlash(folder: string, name: string)
    ensures var trimmed := if EndsWith(folder, "/") then folder[..|folder| - 1] else folder;
      FolderPath(folder, name) == trimmed + "/" + name
    ensures !EndsWith(folder, "/") ==> FolderPath(folder + "/", name) == FolderPath(folder, name)
  {
    if EndsWith(folder, "/") {
      assert folder == folder[..|folder| - 1] + "/";
    }
    assert EndsWith(folder + "/", "/") by {
      assert (folder + "/")[|folder + "/"| - 1..] == "/";
    }
  }

  /** `os.path.basename`: what follows the last slash. */
  function PathBase(f: string): string
  {
    var parts := Split(f, '/');
    parts[|parts| - 1]
  }

  // ------------------------------------------------------ registry values

  /** What an explore in a file's registry is described by: its name, properties and join names. */
  datatype ExploreSummary = ExploreSummary(identifier: string, props: Pairs<Value>, joinNames: seq<string>)

  function Summary(s: ExploreState): ExploreSummary
  {
    ExploreSummary(s.identifier, s.props, Keys(s.joins))
  }

  function ViewKey(v: ViewState): string { v.identifier }

  function ExploreKey(e: ExploreSummary): string { e.identifier }

  /** `view_collection.add` on a listed item: a dictionary becomes a view; any other item has no `name`. */
  function ListedView(item: Value): (r: Result<ViewState>)
    ensures !item.Dict? ==> r == Err(AttributeError)
  {
    if item.Dict? then NewView(item) else Err(AttributeError)
  }

  /** `explore_collection.add` on a listed item, likewise. */
  function ListedExplore(item: Value): (r: Result<ExploreSummary>)
    ensures !item.Dict? ==> r == Err(AttributeError)
  {
    if item.Dict? then (var s :- NewExplore(item); Ok(Summary(s))) else Err(AttributeError)
  }

  /** `add(Explore(item))`: any item makes an explore. */
  function BoundExplore(item: Value): Result<ExploreSummary>
  {
    var s :- NewExplore(item);
    Ok(Summary(s))
  }

  /** A collection section of the parsed content: absent, or an iterable of items to register. */
  function Collection<V>(d: Pairs<V>, content: Pairs<Value>, name: string, make: Value -> Result<V>, key: V -> string)
    : Result<Pairs<V>>
  {
    match Get(content, name)
    case None => Ok(d)
    case Some(v) =>
      match Occurrences(v)
      case None => Err(TypeError)
      case Some(items) => Register(d, items, make, key)
  }

  /** `addProperty` for each entry in order; a property that cannot be added stops the run. */
  function AddEntries(e: Pairs<Value>, entries: Pairs<Value>): Result<Pairs<Value>>
    decreases |entries|
  {
    if entries == [] then Ok(e)
    else
      var v :- AddProp(Dict(e), entries[0].0, entries[0].1);
      AddEntries(v.entries, entries[1..])
  }

  /** A file's content: its properties and its two registries. */
  datatype FileState = FileState(props: Pairs<Value>, views: Pairs<ViewState>, explores: Pairs<ExploreSummary>)

  /**
   * Steps 2 and 3 of `File(f)`: the file type, then the listed views and
   * explores, then what remains of the parsed content as the properties.
   */
  function OpenState(name: string, parsed: Pairs<Value>): Result<(string, FileState)>
  {
    var filetype :- FileType(name);
    var views :- Collection([], parsed, "views", ListedView, ViewKey);
    var rest := Pop(parsed, "views");
    var explores :- Collection([], rest, "explores", ListedExplore, ExploreKey);
    Ok((filetype, FileState(Pop(rest, "explores"), views, explores)))
  }

  /** `_bind_lkml`: views, then explores, are added to the registries; the rest become properties. */
  function BindState(st: FileState, d: Pairs<Value>): Result<FileState>
  {
    var views :- Collection(st.views, d, "views", ViewMaker(false), ViewKey);
    var rest := Pop(d, "views");
    var explores :- Collection(st.explores, rest, "explores", ExploreMaker(false), ExploreKey);
    var props :- AddEntries(st.props, Pop(rest, "explores"));
    Ok(FileState(props, views, explores))
  }

  // ------------------------------------------------------- registry lemmas

  /**
   * A listed section registers one entry per distinct name, each the last
   * item of that name.
   */
  lemma CollectionRegistry<V>(content: Pairs<Value>, name: string, items: seq<Value>, make: Value -> Result<V>, key: V -> string, j: int)
    requires Get(content, name) == Some(List(items)) && 0 <= j < |items|
    requires forall i :: 0 <= i < |items| ==> make(items[i]).Ok?
    requires forall l :: j < l < |items| ==> key(make(items[l]).value) != key(make(items[j]).value)
    ensures Collection([], content, name, make, key).Ok?
    ensures |Collection([], content, name, make, key).value| == |MadeKeys(items, make, key)|
    ensures Get(Collection([], content, name, make, key).value, key(make(items[j]).value)) == Some(make(items[j]).value)
  {
    RegisterKeys([], items, make, key);
    assert (set k | k in Keys<V>([])) == {};
    KeyCount(Register([], items, make, key).value);
    RegisterLastWins([], items, make, key, j);
  }

  /** The views of an opened file are its "views" section; its properties name no collection. */
  lemma OpenedShape(name: string, parsed: Pairs<Value>)
    requires OpenState(name, parsed).Ok?
    ensures OpenState(name, parsed).value.1.views == Collection([], parsed, "views", ListedView, ViewKey).value
    ensures Get(OpenState(name, parsed).value.1.props, "views").None?
    ensures Get(OpenState(name, parsed).value.1.props, "explores").None?
  {
    var rest := Pop(parsed, "views");
    PopGet(parsed, "views", "views");
    PopGet(rest, "explores", "views");
    PopGet(rest, "explores", "explores");
  }

  /**
   * A file opened from parsed content whose views are listed has one view
   * per distinct name, each the last listed view of that name.
   */
  lemma OpenedViews(name: string, parsed: Pairs<Value>, items: seq<Value>, j: int)
    requires OpenState(name, parsed).Ok? && Get(parsed, "views") == Some(List(items))
    requires 0 <= j < |items| && ListedView(items[j]).Ok?
    requires forall l :: j < l < |items| ==> ListedView(items[l]).Ok? && ListedView(items[l]).value.identifier != ListedView(items[j]).value.identifier
    ensures forall i :: 0 <= i < |items| ==> items[i].Dict? && NewView(items[i]).Ok?
    ensures |OpenState(name, parsed).value.1.views| == |MadeKeys(items, ListedView, ViewKey)|
    ensures Get(OpenState(name, parsed).value.1.views, ListedView(items[j]).value.identifier) == Some(ListedView(items[j]).value)
  {
    OpenedShape(name, parsed);
    var views := OpenState(name, parsed).value.1.views;
    RegisterKeys([], items, ListedView, ViewKey);
    assert forall i :: 0 <= i < |items| ==> ListedView(items[i]).Ok?;
    CollectionRegistry(parsed, "views", items, ListedView, ViewKey, j);
    assert views == Collection([], parsed, "views", ListedView, ViewKey).value;
  }

  /**
   * Merging content whose views are listed: each listed view is stored under
   * its name unless a later one of the same name replaces it, and a view of
   * any other name keeps its entry.
   */
  lemma BoundViews(st: FileState, d: Pairs<Value>, items: seq<Value>, j: int, k: string)
    requires UniqueKeys(st.views) && BindState(st, d).Ok? && Get(d, "views") == Some(List(items))
    requires 0 <= j < |items| && NewView(items[j]).Ok?
    requires forall l :: j < l < |items| ==> NewView(items[l]).Ok? && NewView(items[l]).value.identifier != NewView(items[j]).value.identifier
    requires forall l :: 0 <= l < |items| ==> NewView(items[l]).Ok? ==> NewView(items[l]).value.identifier != k
    ensures Get(BindState(st, d).value.views, NewView(items[j]).value.identifier) == Some(NewView(items[j]).value)
    ensures Get(BindState(st, d).value.views, k) == Get(st.views, k)
  {
    var views := BindState(st, d).value.views;
    assert views == Register(st.views, items, NewView, ViewKey).value;
    RegisterKeys(st.views, items, NewView, ViewKey);
    RegisterLastWins(st.views, items, NewView, ViewKey, j);
    RegisterKeeps(st.views, items, NewView, ViewKey, k);
  }

  /** Setting entries on well-formed properties always succeeds and keeps them well formed. */
  lemma {:induction false} AddEntriesRegular(e: Pairs<Value>, entries: Pairs<Value>)
    requires Regular(e)
    ensures AddEntries(e, entries).Ok? && Regular(AddEntries(e, entries).value)
    decreases |entries|
  {
    if entries != [] {
      AddKeepsRegular(e, entries[0].0, entries[0].1);
      AddEntriesRegular(AddProp(Dict(e), entries[0].0, entries[0].1).value.entries, entries[1..]);
    }
  }

  /** Merging content without collections only sets properties; the collections stay as they were. */
  lemma BindPlain(st: FileState, d: Pairs<Value>)
    requires Get(d, "views").None? && Get(d, "explores").None?
    ensures BindState(st, d).Ok? <==> AddEntries(st.props, d).Ok?
    ensures BindState(st, d).Ok? ==>
              BindState(st, d).value == FileState(AddEntries(st.props, d).value, st.views, st.explores)
  {
    GetMisses(d, "views");
    PopAbsent(d, "views");
    GetMisses(d, "explores");
    PopAbsent(d, "explores");
  }

  /**
   * Adding to a registry and removing the same new name again leaves it as
   * it was; adding under a present name keeps the entry's position.
   */
  lemma AddThenRemove<V>(d: Pairs<V>, k: string, v: V)
    requires UniqueKeys(d)
    ensures k !in Keys(d) ==> Pop(Put(d, k, v), k) == d
    ensures k in Keys(d) ==> Keys(Put(d, k, v)) == Keys(d)
  {
    PutKeys(d, k, v);
    if k !in Keys(d) {
      PutAbsent(d, k, v);
      PopLast(d, k, v);
    }
  }

  // ------------------------------------------------------ registry objects

  ghost function ViewSet(vs: Pairs<View>): set<View>
  {
    set i | 0 <= i < |vs| :: vs[i].1
  }

  ghost function ExploreSet(es: Pairs<Explore>): set<Explore>
  {
    set i | 0 <= i < |es| :: es[i].1
  }

  /** The views of a registry, each described by its snapshot. */
  function ViewStates(vs: Pairs<View>): (r: Pairs<ViewState>)
    reads ViewSet(vs)
    ensures |r| == |vs| && Keys(r) == Keys(vs)
    ensures forall i :: 0 <= i < |vs| ==> r[i] == (vs[i].0, vs[i].1.Snapshot())
  {
    seq(|vs|, i requires 0 <= i < |vs| reads ViewSet(vs) => (vs[i].0, vs[i].1.Snapshot()))
  }

  function Summarize(e: Explore): ExploreSummary
    reads e
  {
    ExploreSummary(e.identifier, e.props, Keys(e.joins))
  }

  /** The explores of a registry, each described by its summary. */
  function ExploreStates(es: Pairs<Explore>): (r: Pairs<ExploreSummary>)
    reads ExploreSet(es)
    ensures |r| == |es| && Keys(r) == Keys(es)
    ensures forall i :: 0 <= i < |es| ==> r[i] == (es[i].0, Summarize(es[i].1))
  {
    seq(|es|, i requires 0 <= i < |es| reads ExploreSet(es) => (es[i].0, Summarize(es[i].1)))
  }

  /** Storing a view object stores its snapshot. */
  lemma PutViewState(vs: Pairs<View>, k: string, v: View)
    requires UniqueKeys(vs)
    ensures ViewStates(Put(vs, k, v)) == Put(ViewStates(vs), k, v.Snapshot())
  {
    var s := ViewStates(vs);
    assert UniqueKeys(s) by {
      forall a, b | 0 <= a < b < |s| ensures s[a].0 != s[b].0 {
        assert Keys(s)[a] == Keys(vs)[a] && Keys(s)[b] == Keys(vs)[b];
      }
    }
    PutAt(vs, k, v);
    PutAt(s, k, v.Snapshot());
    PutKeys(vs, k, v);
  }

  /** Storing an explore object stores its summary. */
  lemma PutExploreState(es: Pairs<Explore>, k: string, e: Explore)
    requires UniqueKeys(es)
    ensures ExploreStates(Put(es, k, e)) == Put(ExploreStates(es), k, Summarize(e))
  {
    var s := ExploreStates(es);
    assert UniqueKeys(s) by {
      forall a, b | 0 <= a < b < |s| ensures s[a].0 != s[b].0 {
        assert Keys(s)[a] == Keys(es)[a] && Keys(s)[b] == Keys(es)[b];
      }
    }
    PutAt(es, k, e);
    PutAt(s, k, Summarize(e));
    PutKeys(es, k, e);
  }

  /** How a collection makes a view of an item: `add` on a listed item, or `View(item)`. */
  function ViewMaker(listed: bool): Value -> Result<ViewState>
  {
    if listed then ListedView else NewView
  }

  /** How a collection makes an explore of an item, likewise. */
  function ExploreMaker(listed: bool): Value -> Result<ExploreSummary>
  {
    if listed then ListedExplore else BoundExplore
  }

  // ------------------------------------------------------------ the file

  class File {
    var name: string
    var baseName: string
    var path: string
    var sha: string
    var filetype: string
    var props: Pairs<Value>
    /** The view collection, keyed by view name. */
    var views: Pairs<View>
    /** The explore collection, keyed by explore name. */
    var explores: Pairs<Explore>

    ghost predicate Valid()
      reads this
    {
      UniqueKeys(views) && UniqueKeys(explores)
    }

    /** The properties and what the two collections hold. */
    function Contents(): FileState
      reads this, ViewSet(views), ExploreSet(explores)
    {
      FileState(props, ViewStates(views), ExploreStates(explores))
    }

    /** The name, folder and type stayed as they were. */
    twostate predicate SameNames()
      reads this
    {
      name == old(name) && baseName == old(baseName) && path == old(path) && sha == old(sha) &&
      filetype == old(filetype)
    }

    /** Only the view collection changed. */
    twostate predicate ViewsOnly()
      reads this
    {
      SameNames() && props == old(props) && explores == old(explores)
    }

    /** Only the explore collection changed. */
    twostate predicate ExploresOnly()
      reads this
    {
      SameNames() && props == old(props) && views == old(views)
    }

    /** A file with its names set and nothing in it. */
    constructor (name: string, baseName: string, path: string, sha: string, filetype: string)
      ensures Valid() && this.name == name && this.baseName == baseName && this.path == path
      ensures this.sha == sha && this.filetype == filetype
      ensures props == [] && views == [] && explores == []
    {
      this.name := name;
      this.baseName := baseName;
      this.path := path;
      this.sha := sha;
      this.filetype := filetype;
      props := [];
      views := [];
      explores := [];
    }

    // ---------------------------------------------------- construction

    /**
     * Steps 2 and 3 of `File(f)`, once the bootstrap has set the names and
     * parsed the content: the file type, the two collections, the properties.
     */
    static method Open(name: string, baseName: string, path: string, sha: string, parsed: Pairs<Value>)
      returns (r: Result<File>)
      ensures r.Ok? <==> OpenState(name, parsed).Ok?
      ensures r.Ok? ==> fresh(r.value) && r.value.Valid()
      ensures r.Ok? ==> r.value.name == name && r.value.baseName == baseName && r.value.path == path
      ensures r.Ok? ==> r.value.sha == sha && r.value.filetype == OpenState(name, parsed).value.0
      ensures r.Ok? ==> r.value.Contents() == OpenState(name, parsed).value.1
    {
      var filetype := FileType(name);
      if filetype.Err? {
        r := Err(filetype.error);
        return;
      }
      var f := new File(name, baseName, path, sha, filetype.value);
      var added := f.AddViewSection(parsed, true);
      if added.Err? {
        r := Err(added.error);
        return;
      }
      assert f.Contents().views == Collection([], parsed, "views", ListedView, ViewKey).value;
      var rest := Pop(parsed, "views");
      added := f.AddExploreSection(rest, true);
      if added.Err? {
        r := Err(added.error);
        return;
      }
      assert f.Contents().explores == Collection([], rest, "explores", ListedExplore, ExploreKey).value;
      f.props := Pop(rest, "explores");
      r := Ok(f);
    }

    /** `File(path)`: the name is the path's last component; the content is the parsed file. */
    static method FromPath(f: string, parsed: Pairs<Value>) returns (r: Result<File>)
      ensures r.Ok? <==> OpenState(PathBase(f), parsed).Ok?
      ensures r.Ok? ==> fresh(r.value) && r.value.Valid() && r.value.name == PathBase(f)
      ensures r.Ok? ==> r.value.baseName == BaseName(PathBase(f)) && r.value.path == f && r.value.sha == ""
      ensures r.Ok? ==> r.value.Contents() == OpenState(PathBase(f), parsed).value.1
    {
      var name := PathBase(f);
      r := Open(name, BaseName(name), f, "", parsed);
    }

    /**
     * `File(view)`: named after the view, of type `view`; `parsed` is the
     * content the view's own rendering parses to.
     */
    static method FromView(v: View, parsed: Pairs<Value>) returns (r: Result<File>)
      ensures r.Ok? <==> OpenState(v.identifier + ".view.lkml", parsed).Ok?
      ensures r.Ok? ==> fresh(r.value) && r.value.Valid() && r.value.filetype == "view"
      ensures r.Ok? ==> r.value.name == r.value.path == v.identifier + ".view.lkml"
      ensures r.Ok? ==> r.value.baseName == v.identifier == BaseName(r.value.name)
      ensures r.Ok? ==> r.value.Contents() == OpenState(v.identifier + ".view.lkml", parsed).value.1
    {
      var name := v.identifier + ".view.lkml";
      GeneratedNames(v.identifier, "view");
      assert name == v.identifier + "." + "view" + ".lkml";
      r := Open(name, v.identifier, name, "", parsed);
    }

    /** `File(explore)`: named after the explore, of type `model`. */
    static method FromExplore(e: Explore, parsed: Pairs<Value>) returns (r: Result<File>)
      ensures r.Ok? <==> OpenState(e.identifier + ".model.lkml", parsed).Ok?
      ensures r.Ok? ==> fresh(r.value) && r.value.Valid() && r.value.filetype == "model"
      ensures r.Ok? ==> r.value.name == r.value.path == e.identifier + ".model.lkml"
      ensures r.Ok? ==> r.value.baseName == e.identifier == BaseName(r.value.name)
      ensures r.Ok? ==> r.value.Contents() == OpenState(e.identifier + ".model.lkml", parsed).value.1
    {
      var name := e.identifier + ".model.lkml";
      GeneratedNames(e.identifier, "model");
      assert name == e.identifier + "." + "model" + ".lkml";
      r := Open(name, e.identifier, name, "", parsed);
    }
  
    // ----------------------------------------------------- collections

    /** `views[name]`: the view stored under the name, or a `KeyError`. */
    function GetView(n: string): (r: Result<View>)
      reads this
      ensures r.Ok? <==> n in Keys(views)
      ensures r.Ok? ==> (n, r.value) in views
      ensures r.Err? ==> r.error == KeyError
    {
      GetMisses(views, n);
      match Get(views, n)
      case None => Err(KeyError)
      case Some(v) => Ok(v)
    }

    /** `explores[name]`, likewise. */
    function GetExplore(n: string): (r: Result<Explore>)
      reads this
      ensures r.Ok? <==> n in Keys(explores)
      ensures r.Ok? ==> (n, r.value) in explores
      ensures r.Err? ==> r.error == KeyError
    {
      GetMisses(explores, n);
      match Get(explores, n)
      case None => Err(KeyError)
      case Some(e) => Ok(e)
    }

    /** `addView(v)`: the view is stored under its name, replacing a view of that name in its place. */
    method AddView(v: View)
      requires Valid()
      modifies this
      ensures Valid() && ViewsOnly()
      ensures views == Put(old(views), v.identifier, v) && GetView(v.identifier) == Ok(v)
      ensures ViewStates(views) == Put(old(ViewStates(views)), v.identifier, v.Snapshot())
    {
      PutViewState(views, v.identifier, v);
      PutUnique(views, v.identifier, v);
      PutGet(views, v.identifier, v);
      views := Put(views, v.identifier, v);
    }

    /** `addExplore(e)`, likewise. */
    method AddExplore(e: Explore)
      requires Valid()
      modifies this
      ensures Valid() && ExploresOnly()
      ensures explores == Put(old(explores), e.identifier, e) && GetExplore(e.identifier) == Ok(e)
      ensures ExploreStates(explores) == Put(old(ExploreStates(explores)), e.identifier, Summarize(e))
    {
      PutExploreState(explores, e.identifier, e);
      PutUnique(explores, e.identifier, e);
      PutGet(explores, e.identifier, e);
      explores := Put(explores, e.identifier, e);
    }

    /** `views.remove(name)`: a missing name is a `KeyError`. */
    method RemoveView(n: string) returns (r: Result<()>)
      requires Valid()
      modifies this
      ensures Valid() && ViewsOnly()
      ensures r.Err? <==> n !in Keys(old(views))
      ensures r.Err? ==> r.error == KeyError && views == old(views)
      ensures r.Ok? ==> views == Pop(old(views), n) && GetView(n).Err?
      ensures r.Ok? ==> forall k :: k != n ==> Get(views, k) == Get(old(views), k)
    {
      GetMisses(views, n);
      if Get(views, n).None? {
        r := Err(KeyError);
        return;
      }
      forall k | k != n ensures Get(Pop(views, n), k) == Get(views, k) {
        PopGet(views, n, k);
      }
      PopGet(views, n, n);
      GetMisses(Pop(views, n), n);
      PopUnique(views, n);
      views := Pop(views, n);
      r := Ok(());
    }

    /** `explores.remove(name)`, likewise. */
    method RemoveExplore(n: string) returns (r: Result<()>)
      requires Valid()
      modifies this
      ensures Valid() && ExploresOnly()
      ensures r.Err? <==> n !in Keys(old(explores))
      ensures r.Err? ==> r.error == KeyError && explores == old(explores)
      ensures r.Ok? ==> explores == Pop(old(explores), n) && GetExplore(n).Err?
      ensures r.Ok? ==> forall k :: k != n ==> Get(explores, k) == Get(old(explores), k)
    {
      GetMisses(explores, n);
      if Get(explores, n).None? {
        r := Err(KeyError);
        return;
      }
      forall k | k != n ensures Get(Pop(explores, n), k) == Get(explores, k) {
        PopGet(explores, n, k);
      }
      PopGet(explores, n, n);
      GetMisses(Pop(explores, n), n);
      PopUnique(explores, n);
      explores := Pop(explores, n);
      r := Ok(());
    }

    /**
     * One item of a views section: `add(item)` when listed, which wants a
     * dictionary, or `add(View(item))` when bound.
     */
    method AddViewItem(item: Value, listed: bool) returns (r: Result<()>)
      requires Valid()
      modifies this
      ensures Valid() && ViewsOnly()
      ensures r.Ok? <==> ViewMaker(listed)(item).Ok?
      ensures r.Ok? ==>
                ViewStates(views) == Put(old(ViewStates(views)), ViewMaker(listed)(item).value.identifier, ViewMaker(listed)(item).value)
    {
      ghost var made := ViewMaker(listed)(item);
      if listed && !item.Dict? {
        r := Err(AttributeError);
        return;
      }
      assert made == NewView(item);
      ghost var before := ViewStates(views);
      var v := View.FromValue(item);
      if v.Err? {
        r := Err(v.error);
        return;
      }
      assert ViewStates(views) == before;
      assert v.value.Snapshot() == made.value;
      AddView(v.value);
      r := Ok(());
    }

    /** One item of an explores section, likewise. */
    method AddExploreItem(item: Value, listed: bool) returns (r: Result<()>)
      requires Valid()
      modifies this
      ensures Valid() && ExploresOnly()
      ensures r.Ok? <==> ExploreMaker(listed)(item).Ok?
      ensures r.Ok? ==>
                ExploreStates(explores) == Put(old(ExploreStates(explores)), ExploreMaker(listed)(item).value.identifier, ExploreMaker(listed)(item).value)
    {
      ghost var made := ExploreMaker(listed)(item);
      if listed && !item.Dict? {
        r := Err(AttributeError);
        return;
      }
      assert made == BoundExplore(item);
      ghost var before := ExploreStates(explores);
      var e := Explore.FromValue(item);
      if e.Err? {
        r := Err(e.error);
        return;
      }
      assert ExploreStates(explores) == before;
      assert Summarize(e.value) == Summary(NewExplore(item).value) == made.value;
      AddExplore(e.value);
      r := Ok(());
    }

    /** Every item of a views section, in order; the first that fails stops the run. */
    method AddViewItems(items: seq<Value>, listed: bool) returns (r: Result<()>)
      requires Valid()
      modifies this
      ensures Valid() && ViewsOnly()
      ensures r.Ok? <==> Register(old(ViewStates(views)), items, ViewMaker(listed), ViewKey).Ok?
      ensures r.Ok? ==> ViewStates(views) == Register(old(ViewStates(views)), items, ViewMaker(listed), ViewKey).value
    {
      ghost var make := ViewMaker(listed);
      ghost var goal := Register(ViewStates(views), items, make, ViewKey);
      var i := 0;
      while i < |items|
        invariant 0 <= i <= |items|
        invariant Valid() && ViewsOnly()
        invariant goal == Register(ViewStates(views), items[i..], make, ViewKey)
      {
        ghost var cur := ViewStates(views);
        assert items[i..][0] == items[i] && items[i..][1..] == items[i + 1..];
        var added := AddViewItem(items[i], listed);
        if added.Err? {
          assert make(items[i]).Err?;
          r := Err(added.error);
          return;
        }
        assert ViewStates(views) == Put(cur, ViewKey(make(items[i]).value), make(items[i]).value);
        i := i + 1;
      }
      r := Ok(());
    }

    /** Every item of an explores section, likewise. */
    method AddExploreItems(items: seq<Value>, listed: bool) returns (r: Result<()>)
      requires Valid()
      modifies this
      ensures Valid() && ExploresOnly()
      ensures r.Ok? <==> Register(old(ExploreStates(explores)), items, ExploreMaker(listed), ExploreKey).Ok?
      ensures r.Ok? ==> ExploreStates(explores) == Register(old(ExploreStates(explores)), items, ExploreMaker(listed), ExploreKey).value
    {
      ghost var make := ExploreMaker(listed);
      ghost var goal := Register(ExploreStates(explores), items, make, ExploreKey);
      var i := 0;
      while i < |items|
        invariant 0 <= i <= |items|
        invariant Valid() && ExploresOnly()
        invariant goal == Register(ExploreStates(explores), items[i..], make, ExploreKey)
      {
        ghost var cur := ExploreStates(explores);
        assert items[i..][0] == items[i] && items[i..][1..] == items[i + 1..];
        var added := AddExploreItem(items[i], listed);
        if added.Err? {
          assert make(items[i]).Err?;
          r := Err(added.error);
          return;
        }
        assert ExploreStates(explores) == Put(cur, ExploreKey(make(items[i]).value), make(items[i]).value);
        i := i + 1;
      }
      r := Ok(());
    }

    /** The `views` section of a dictionary, when there is one. */
    method AddViewSection(d: Pairs<Value>, listed: bool) returns (r: Result<()>)
      requires Valid()
      modifies this
      ensures Valid() && ViewsOnly()
      ensures r.Ok? <==> Collection(old(ViewStates(views)), d, "views", ViewMaker(listed), ViewKey).Ok?
      ensures r.Ok? ==> ViewStates(views) == Collection(old(ViewStates(views)), d, "views", ViewMaker(listed), ViewKey).value
    {
      var section := Get(d, "views");
      if section.None? {
        r := Ok(());
        return;
      }
      var items := Occurrences(section.value);
      if items.None? {
        r := Err(TypeError);
        return;
      }
      r := AddViewItems(items.value, listed);
    }

    /** The `explores` section of a dictionary, when there is one. */
    method AddExploreSection(d: Pairs<Value>, listed: bool) returns (r: Result<()>)
      requires Valid()
      modifies this
      ensures Valid() && ExploresOnly()
      ensures r.Ok? <==> Collection(old(ExploreStates(explores)), d, "explores", ExploreMaker(listed), ExploreKey).Ok?
      ensures r.Ok? ==> ExploreStates(explores) == Collection(old(ExploreStates(explores)), d, "explores", ExploreMaker(listed), ExploreKey).value
    {
      var section := Get(d, "explores");
      if section.None? {
        r := Ok(());
        return;
      }
      var items := Occurrences(section.value);
      if items.None? {
        r := Err(TypeError);
        return;
      }
      r := AddExploreItems(items.value, listed);
    }

    // ------------------------------------------------------ properties

    /** `setProperty(name, value)`: `addProperty` on the file's properties. */
    method SetProperty(n: string, value: Value) returns (r: Result<()>)
      modifies this
      ensures SameNames() && views == old(views) && explores == old(explores)
      ensures r.Ok? <==> AddProp(Dict(old(props)), n, value).Ok?
      ensures r.Ok? ==> props == AddProp(Dict(old(props)), n, value).value.entries
      ensures r.Err? ==> r.error == AttributeError && props == old(props)
    {
      var next := AddProp(Dict(props), n, value);
      if next.Err? {
        r := Err(next.error);
        return;
      }
      props := next.value.entries;
      r := Ok(());
    }

    /** `setSha(sha)`. */
    method SetSha(s: string)
      modifies this
      ensures sha == s && name == old(name) && baseName == old(baseName) && path == old(path)
      ensures filetype == old(filetype) && props == old(props) && views == old(views) && explores == old(explores)
    {
      sha := s;
    }

    /** `setFolder(folder)`: the path becomes the folder joined to the file's name by one slash. */
    method SetFolder(folder: string)
      modifies this
      ensures path == FolderPath(folder, name)
      ensures name == old(name) && baseName == old(baseName) && sha == old(sha) && filetype == old(filetype)
      ensures props == old(props) && views == old(views) && explores == old(explores)
    {
      path := FolderPath(folder, name);
    }

    // ------------------------------------------------------------ merge

    /**
     * `_bind_lkml(d)`: the views, then the explores, of `d` are added to the
     * collections, then every remaining entry is set as a property. `d`
     * itself is a value, so the source's deep copy leaves it as it was.
     */
    method BindLkml(d: Pairs<Value>) returns (r: Result<()>)
      requires Valid()
      modifies this
      ensures Valid() && SameNames()
      ensures r.Ok? <==> BindState(old(Contents()), d).Ok?
      ensures r.Ok? ==> Contents() == BindState(old(Contents()), d).value
    {
      ghost var st := Contents();
      var added := AddViewSection(d, false);
      if added.Err? {
        r := Err(added.error);
        return;
      }
      ghost var vs := ViewStates(views);
      assert vs == Collection(st.views, d, "views", ViewMaker(false), ViewKey).value;
      assert explores == old(explores);
      assert ExploreStates(explores) == st.explores;
      var rest := Pop(d, "views");
      added := AddExploreSection(rest, false);
      if added.Err? {
        r := Err(added.error);
        return;
      }
      ghost var es := ExploreStates(explores);
      assert es == Collection(st.explores, rest, "explores", ExploreMaker(false), ExploreKey).value;
      assert ViewStates(views) == vs;
      assert props == st.props;
      r := SetEntries(Pop(rest, "explores"));
      assert ViewStates(views) == vs && ExploreStates(explores) == es;
      assert r.Ok? ==> BindState(st, d) == Ok(FileState(props, vs, es));
    }

    /** `for k, v in d.items(): setProperty(k, v)`. */
    method SetEntries(entries: Pairs<Value>) returns (r: Result<()>)
      modifies this
      ensures SameNames() && views == old(views) && explores == old(explores)
      ensures r.Ok? <==> AddEntries(old(props), entries).Ok?
      ensures r.Ok? ==> props == AddEntries(old(props), entries).value
    {
      var i := 0;
      while i < |entries|
        invariant 0 <= i <= |entries|
        invariant SameNames() && views == old(views) && explores == old(explores)
        invariant AddEntries(old(props), entries) == AddEntries(props, entries[i..])
      {
        assert entries[i..][1..] == entries[i + 1..];
        var stored := SetProperty(entries[i].0, entries[i].1);
        if stored.Err? {
          r := Err(stored.error);
          return;
        }
        i := i + 1;
      }
      r := Ok(());
    }
  }
}

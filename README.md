# pylookml object model in Dafny

This project models the object model of pylookml, a Python library that reads, edits and re-emits
LookML, Looker's modelling language. The model follows `lookml/lookml.py` and `lookml/config.py`.

- **Values.** A parsed LookML document is a nested value: a string, a list, an insertion-ordered
  dictionary, or some other Python object (`Values.Value`). Dictionaries are sequences of pairs in
  which `update` on an existing key keeps that key's position (`ODict`).
- **Properties.** `Properties` (the `schema` dictionary or list plus its plural tag) and
  `Property` are modelled in `Props`:
  - `addProperty`, `__delete__`, `isMember` and `getProperties`;
  - the name-driven shape `Property.__str__` picks;
  - the shapes `Properties.__str__` prints.
  `Props.Properties` is the class whose methods change the schema in place.
- **Entities.** Everything views, fields, joins and explores share comes from `base` (`Base`):
  - binding a dictionary (`name`, then every other entry as a property);
  - `setProperty`, `unSetProperty` and `getMessage`;
  - the tidied template rendering.
- **Fields.** Fields (`Fields.Field`, a value held by its view) carry:
  - reference forms;
  - primary-key marking;
  - tags and links;
  - `setDBColumn`;
  - the `DimensionGroup` defaults.
- **Views.** The view's field registry is specified by functions on a table of fields and a primary
  key (`Views`, `ViewEdits`, `ViewBind`, `Renames`). It is implemented by the class
  `ViewObjects.View`, whose methods update `fields`, `primaryKey`, `props` and `children` in place and
  are proved against those functions. This covers:
  - adding and removing fields;
  - the one primary key;
  - the five partitions and their sorting;
  - derived measures, `~view` and `setName_safe`;
  - `extend` and rendering.
- **Joins and explores.** `Explores` holds the `Join` and `Explore` classes: the join's guarded
  setters, the explore's join registry and its binding and rendering.
- **Files.** `Files` holds the `File` class:
  - the name rules (`base_name`, `filetype`, `setFolder`);
  - the view and explore collections;
  - the `_bind_lkml` merge.
- **String helpers.** `Text` and `Order` model the module's string helpers (`splice`, `stringify`,
  `tidy`, `removeSpace`, `snakeCase`, `lookCase`) and `sortMe`/`sorted`.
- **Configuration.** `Config` holds the tables and templates of `lookml/config.py`.

Python exceptions are modelled as `Results.Result` values: `KeyError`, `TypeError`,
`AttributeError`, `ValueError`, `IndexError`, `AssertionError`, and the `Exception` the library
raises for an unsupported file name or value. Every error path of the modelled code returns one of
these rather than being excluded by a precondition.

## Model

| member | source | states |
|---|---|---|
| Results.Collect | lookml/lookml.py:1148 | rendering a list of items succeeds exactly when every item does, the texts then correspond one to one, and a failure is one of the items' failures |
| ODict.Put | lookml/lookml.py:83 | `dict.update({k: v})`: the new pair is present and every other pair was there before |
| ODict.PutKeys | lookml/lookml.py:83 | an update keeps an existing key at its position and appends a new key at the end |
| ODict.PutGet | lookml/lookml.py:83 | last write wins: the key then looks up the new value |
| ODict.PutOther | lookml/lookml.py:83 | an update changes no other key's value |
| ODict.PutUnique | lookml/lookml.py:83 | an update keeps the keys unique |
| ODict.PutTwice | lookml/lookml.py:83 | writing the same value twice is writing it once |
| ODict.PutAt | lookml/lookml.py:83 | on unique keys, the update replaces the entry where it stands or appends exactly one |
| ODict.Pop | lookml/lookml.py:89 | `dict.pop`: no pair with the key remains, and the rest were there before |
| ODict.PopGet | lookml/lookml.py:89 | after `pop` the key misses and every other key keeps its value |
| ODict.PopPresent | lookml/lookml.py:89 | popping a present key removes exactly one entry |
| ODict.PopLast | lookml/lookml.py:83-89 | popping the key just appended restores the dictionary |
| ODict.GetMisses | lookml/lookml.py:1224 | `dict.get` misses exactly when the key is absent |
| ODict.RegisterKeys | lookml/lookml.py:69-72 | registering items succeeds exactly when every item can be made; the keys are then the old ones and the items' names, each held once |
| ODict.RegisterKeeps | lookml/lookml.py:69-72 | a key no item carries keeps its value |
| ODict.RegisterLastWins | lookml/lookml.py:69-72 | each key holds the value of the last item that carries it |
| ODict.KeyCount | lookml/lookml.py:1140-1141 | a dictionary with unique keys has as many entries as distinct keys |
| Values.MaxOf | lookml/lookml.py:1229-1250 | the largest element bounds all and is one of them (used for nesting depth) |
| Config.Vocabularies | lookml/config.py:1-12 | `JOIN_TYPES` and `RELATIONSHIPS` are exactly the four words each; `sets`, `filters`, `link`, `actions`, `include` repeat; no multi-value key repeats; `NEWLINEINDENT` is newline plus two spaces; `TIMEFRAMES` has 12 entries from `raw` to `time_of_day`; both field delimiters are a backtick |
| Config.EntityTemplate | lookml/config.py:21-27 | the join, dimension, measure, parameter, filter and dimension_group templates are all the default `$message$token: $identifier { $props }` |
| Config.DefaultTemplate | lookml/config.py:21 | `TEMPLATES.default`, `$message$token: $identifier { $props }`; `Config.EntityTemplate` shows the field, join and parameter templates are this one |
| Config.ViewTemplate | lookml/config.py:28-30 | `TEMPLATES.view`: the props, then parameters, filters, dimensions, dimension groups, measures and sets, then the children; `ViewBind.RenderViewOrderFree` and `ViewBind.RenderViewTidy` are stated over it |
| Config.ExploreTemplate | lookml/config.py:31-33 | `TEMPLATES.explore`: message, token, name, props and joins; `Explores.ExploreTextShows` shows every join text lands in it |
| Config.ArrayTemplate | lookml/config.py:34 | `TEMPLATES.array`, `{ $data }`: the dictionary form `Props.DictBraces` is stated over |
| Config.ListTemplate | lookml/config.py:35 | `TEMPLATES._list`, `[ $data] `: the form an untagged list schema renders in, its members separated by blanks |
| Text.StringifyPrefixed | lookml/lookml.py:36-41 | `stringify` with `prefix=True` puts the delimiter before every item and adds nothing else |
| Text.PrefixEach | lookml/lookml.py:36-41 | each item is preceded by the delimiter, one output per item |
| Text.TidyShortRuns | lookml/lookml.py:19-26 | `tidy`'s output has no whitespace run of ten or more |
| Text.TidyNoLongRun | lookml/lookml.py:19-26 | after `tidy` no ten consecutive characters are whitespace |
| Text.TidyKeepsShortRuns | lookml/lookml.py:19-26 | text without a long whitespace run is left unchanged |
| Text.TidyIdempotent | lookml/lookml.py:19-26 | `tidy(tidy(s)) == tidy(s)` |
| Text.TidyKeepsText | lookml/lookml.py:19-26 | `tidy` keeps every non-whitespace character, in order |
| Text.Tidy | lookml/lookml.py:19-26 | `tidy`: every run of ten or more `\s` characters becomes a newline and two spaces; specified by `TidyShortRuns`, `TidyNoLongRun`, `TidyKeepsShortRuns`, `TidyIdempotent` and `TidyKeepsText` |
| Text.RunLen | lookml/lookml.py:26 | the length of the leading whitespace run, which is all whitespace and maximal |
| Text.ReplaceAllIntroduces | lookml/lookml.py:1578-1579 | where the pattern occurred, the replacement now occurs |
| Text.ReplaceAllAbsent | lookml/lookml.py:1578-1579 | text without the pattern is left unchanged |
| Text.ReplaceAllRemoves | lookml/lookml.py:1578-1579 | replacing a reference by a different one leaves no occurrence of the old one |
| Text.ReplaceAllKeeps | lookml/lookml.py:1578-1579 | any other reference that was present stays present |
| Text.ReplaceAllAddsNone | lookml/lookml.py:1578-1579 | the replacement brings in no other reference that was not there |
| Text.ReplaceAll | lookml/lookml.py:1578-1579 | `str.replace`: every non-overlapping occurrence, left to right, replaced; specified by `ReplaceAllIntroduces`, `ReplaceAllAbsent`, `ReplaceAllRemoves`, `ReplaceAllKeeps` and `ReplaceAllAddsNone` |
| Text.ShortIsNotFull | lookml/lookml.py:1596-1601 | a short reference never equals a full one |
| Text.HeadClash | lookml/lookml.py:1596-1601 | two references starting the same text are the same reference |
| Text.InsideRef | lookml/lookml.py:1596-1601 | a reference cannot start inside another |
| Text.NoCloseNoRef | lookml/lookml.py:1596-1601 | text with no `}` holds no reference |
| Text.Wrapped | lookml/lookml.py:1306-1307 | wrapping sql as `sql: ... ;;` neither adds nor hides a reference |
| Text.JoinContains | lookml/lookml.py:1148 | every item of a joined list occurs in the result |
| Text.StringifyContains | lookml/lookml.py:36-41 | every item of a stringified collection occurs in the result |
| Text.Stringify | lookml/lookml.py:36-41 | `stringify(collection, delim, prefix, postfix)`: the items joined by the delimiter, with it before or after each when asked; specified by `StringifyPrefixed`, `PrefixEach` and `StringifyContains` |
| Text.RemoveSpace | lookml/lookml.py:16-17 | `removeSpace` leaves none of the stripped characters and keeps the others |
| Text.RemoveSpaceKeepsClean | lookml/lookml.py:16-17 | `removeSpace` leaves clean text alone, so it is idempotent |
| Text.Lower | lookml/lookml.py:11 | `lower()` on ASCII letters: leaves no ASCII capital and keeps the length |
| Text.LowerRun | lookml/lookml.py:9-11 | the leading run is all `[a-z]` letters and maximal: the next character, if any, is not one |
| Text.SnakeCaseIdempotent | lookml/lookml.py:9-11 | `snakeCase` leaves text without capitals alone, so it is idempotent |
| Text.SnakeCase | lookml/lookml.py:9-11 | `snakeCase`: the two `re.sub` passes that put `_` before capitalised words, then `lower()` (ASCII, see "## Left out"); specified by `SnakeCaseIdempotent` and `LowerRun` |
| Text.LookCaseClean | lookml/lookml.py:29-30 | a `lookCase` identifier has no capitals and no stripped characters |
| Text.LookCase | lookml/lookml.py:29-30 | `lookCase`: `removeSpace(snakeCase(s))`; specified by `LookCaseClean` and, through `RemoveSpace`, `RemoveSpaceKeepsClean` |
| Order.StrLtTotal | lookml/lookml.py:32-34 | any two different names are ordered one way or the other |
| Order.StrLtTransitive | lookml/lookml.py:32-34 | the order of names is transitive |
| Order.SortBy | lookml/lookml.py:32-34 | `sorted` keeps exactly the same elements |
| Order.SortBySorted | lookml/lookml.py:32-34 | the result of `sorted` is in key order |
| Order.SortedUnique | lookml/lookml.py:32-34 | two key-ordered sequences of the same elements with distinct keys are equal |
| Order.SortByDeterministic | lookml/lookml.py:32-34 | with distinct keys, the sorted result depends only on which elements there are |
| Props.MakeProperty | lookml/lookml.py:1229-1250 | `Property(name, value)`: a string is kept; a tagged name gets a tagged collection (rejected when not iterable); another list or dict gets an untagged one; anything else raises |
| Props.Tagged | lookml/lookml.py:1476-1478 | a repeatable key yields one property per element, in order |
| Props.GetProperties | lookml/lookml.py:1472-1485 | `getProperties` yields one property per ordinary key and one per element of a repeatable key |
| Props.QuoteEach | lookml/lookml.py:1433 | each member is rendered as `"item",` |
| Props.Occurrences | lookml/lookml.py:1475-1477 | iterating a repeatable key's value: a list gives its items, a string its characters, a dictionary its keys, anything else raises; `Props.Tagged` and `Props.GetProperties` are stated over it |
| Props.ExpandEntries | lookml/lookml.py:1472-1485 | `getProperties`: one property per ordinary key, one per element of a repeatable key, `list_member`/`list_member_quoted` for a list schema; specified by `GetProperties`, `RebuildEntry` and `ExpansionRoundTrip` |
| Props.AddProp | lookml/lookml.py:1511-1522 | `addProperty` fails only with `AttributeError`, and keeps a dictionary a dictionary |
| Props.AddRepeatable | lookml/lookml.py:1512-1516 | a repeatable key collects every value in order and no other key changes |
| Props.AddRepeatableFails | lookml/lookml.py:1512-1516 | adding under a repeatable key fails exactly on a non-dictionary schema or a non-list earlier value |
| Props.AddOverwrites | lookml/lookml.py:1521-1522 | any other key is overwritten in place or appended; the rest is unchanged |
| Props.AddKeepsUnique | lookml/lookml.py:1511-1522 | adding keeps the keys unique |
| Props.AddToList | lookml/lookml.py:1518-1520 | on a list schema a value is appended unless already present; earlier members stay and none appears twice |
| Props.AddToListIdempotent | lookml/lookml.py:1518-1520 | adding the same value to a list twice is adding it once |
| Props.DeleteRemoves | lookml/lookml.py:1524-1526 | `__delete__` removes the key and no other |
| Props.DeleteUndoesAdd | lookml/lookml.py:1511-1526 | deleting a key just added restores the dictionary |
| Props.AddKeepsRegular | lookml/lookml.py:1511-1516 | on an entity's own dictionary `addProperty` never fails and keeps repeatable keys as non-empty lists |
| Props.DeleteKeepsRegular | lookml/lookml.py:1524-1526 | popping keeps the dictionary regular |
| Props.DeleteProp | lookml/lookml.py:1524-1528 | `Properties.__delete__`: the dictionary pop, and the list branch's two-argument `remove` that raises; specified by `DeleteRemoves`, `DeleteUndoesAdd` and `DeleteKeepsRegular` |
| Props.RebuildEntry | lookml/lookml.py:1472-1479 | one entry's expansion added back to a dictionary without it appends that entry |
| Props.ExpansionRoundTrip | lookml/lookml.py:1472-1522 | adding back every property `getProperties` yields rebuilds the collection entry for entry, in order |
| Props.TagsSubstrings | lookml/lookml.py:1354 | `name in ('tags')` is a substring test on `"tags"` |
| Props.ShapeOf | lookml/lookml.py:1343-1384 | the precedence chain of `Property.__str__`, a function of the name only; its branches are the config tables that `Config.Vocabularies`, `ExprBlockShapes`, `QuotedShapes`, `SpecialShapes`, `PluralTablesDisjoint` and `TagsSubstrings` state, and `ShapeIgnoresValueKind` is stated over it |
| Props.RenderValue | lookml/lookml.py:1305-1319 | `str(self.value)`: a plain string is itself, a collection is its `Properties.__str__`; `RenderStrMembers` and `NamedPluralDispatch` are stated over it |
| Props.RenderProperty | lookml/lookml.py:1294-1384 | `Property.__str__`: the shape `ShapeOf` picks around `RenderValue`; specified by `RenderPlain`, `ShapeIgnoresValueKind`, `BracketsConcatenate` and `Renames.ShownWraps` |
| Props.RenderProperties | lookml/lookml.py:1400-1452 | `Properties.__str__`: named plurals, unnamed plurals, quoted lists, `allowed_values` and dictionaries, with their failures; specified by `QuotedListRendering`, `NamedItemsNeedNames`, `NamedItemsFirst`, `DictBraces`, `ListMemberBody` and `NamedPluralRendering` |
| Props.ExprBlockShapes | lookml/lookml.py:1357-1358 | expression-block keys render as `name: v ;;` |
| Props.QuotedShapes | lookml/lookml.py:1360-1361 | quoted-literal keys render as `name: "v"`, except `tags` and `allowed_values` |
| Props.SpecialShapes | lookml/lookml.py:1343-1384 | the plurals are simple; `tags` and multi-value keys are default; `extends`/`alias` are bracketed; list members are simple or comma-terminated |
| Props.RenderPlain | lookml/lookml.py:1304-1384 | a plain string is wrapped according to the name alone |
| Props.ShapeIgnoresValueKind | lookml/lookml.py:1343-1384 | two properties of one name whose values print alike print alike |
| Props.BracketsConcatenate | lookml/lookml.py:1310-1311 | `extends: [a, b]` prints its parents with nothing between them |
| Props.RenderStrMembers | lookml/lookml.py:1379-1380 | string list members print as themselves |
| Props.QuotedListRendering | lookml/lookml.py:1430-1435 | a `tags`/`suggestions` list prints each member quoted and comma-terminated on its own line inside `[ ... ]` |
| Props.NamedItemsNeedNames | lookml/lookml.py:1402-1409 | a named plural prints only if every element has a `name` |
| Props.NamedItemsFirst | lookml/lookml.py:1402-1409 | the first element prints `singular: <name>` and then its body |
| Props.NamedItemsHeader | lookml/lookml.py:1402-1409 | the header of the first named element is the singular, its name and a blank |
| Props.DictBraces | lookml/lookml.py:1424-1425 | a dictionary prints between braces |
| Props.ListMemberBody | lookml/lookml.py:1376-1377 | an element of a named collection prints as its remaining properties |
| Props.PluralTablesDisjoint | lookml/lookml.py:1430-1440 | a named plural tag is neither a quoted list nor an unnamed plural |
| Props.NamedPluralDispatch | lookml/lookml.py:1439-1440 | a named plural collection dispatches to its elements |
| Props.NamedPluralRendering | lookml/lookml.py:1402-1409 | a named plural prints only when every element is a dictionary with a string `name`, and then opens with `singular: <name> { `; the stored schema is unchanged |
| Props.Properties.constructor | lookml/lookml.py:1394-1398 | a `Properties` object holds the given schema and tag |
| Props.Properties.New | lookml/lookml.py:1394-1398 | the constructor rejects a non-iterable schema |
| Props.Properties.AddProperty | lookml/lookml.py:1511-1522 | `addProperty` in place: the schema becomes the `AddProp` result, or stays as it was on failure |
| Props.Properties.Delete | lookml/lookml.py:1524-1528 | `__delete__` pops the key from a dictionary; the list branch raises |
| Props.Properties.IsMember | lookml/lookml.py:1530-1534 | a key of a dictionary schema or a member of a list schema; every caller passes a string (see "## Left out") |
| Props.Properties.Render | lookml/lookml.py:1400-1452 | `str(properties)` on the object: `RenderProperties` of its schema and tag, leaving the schema unchanged |
| Props.AddMakesMember | lookml/lookml.py:1511-1534 | after `addProperty`, the added key or value is a member |
| Base.MessageLine | lookml/lookml.py:389-393 | `getMessage` is `#message\n`, or empty for an empty message |
| Base.SetProp | lookml/lookml.py:399-402 | `setProperty` on a regular dictionary never fails and keeps it regular |
| Base.UnsetProp | lookml/lookml.py:404-407 | `unSetProperty` as intended: the key is popped as `Properties.__delete__` does, no other key changes, and the dictionary stays regular |
| Base.UnsetAsWrittenRaises | lookml/lookml.py:404-407 | as written, unsetting `primary_key: yes` raises, where the intended pop leaves an empty dictionary |
| Base.UnsetPropAsWritten | lookml/lookml.py:404-407 | `unSetProperty` as written: `self.properties.__del__` does not exist, so it raises `AttributeError`; `UnsetAsWrittenRaises` states this against `UnsetProp` |
| Base.BindProps | lookml/lookml.py:353-358 | binding entries keeps properties regular |
| Base.BindIsRebuild | lookml/lookml.py:353-358 | binding is the fold of `addProperty` over the entries |
| Base.PropertiesRoundTrip | lookml/lookml.py:353-358 | re-setting the properties `getProperties` yields on an empty entity gives the same dictionary |
| Base.BindEntity | lookml/lookml.py:353-358 | the `name` entry names the entity and does not become a property; a non-string name is refused |
| Base.BindNeverNames | lookml/lookml.py:353-358 | binding entries without `name` never adds one |
| Base.RenderPropList | lookml/lookml.py:441-449 | renders every property of `getProperties`, one text per property |
| Base.RenderEntityTidy | lookml/lookml.py:441-449 | a rendered entity is tidy, has no ten blanks in a row, and keeps the message, token, name and property texts in order |
| Base.RenderEmptyEntity | lookml/lookml.py:441-449 | an entity with no properties renders as `token: name {  }` after its message |
| Base.PropsBlock | lookml/lookml.py:446 | the props block of the default template: each rendered property, one per indented line only when there are more than two; `RenderEntityTidy` and `RenderEmptyEntity` are stated over it |
| Base.RenderEntity | lookml/lookml.py:441-449 | `base.__str__` for fields and joins: the default template filled and tidied; specified by `RenderPropList`, `RenderEntityTidy` and `RenderEmptyEntity` |
| Fields.SetIfAbsent | lookml/lookml.py:1737-1740 | a key is set only when absent; other keys unchanged |
| Fields.GroupDefaults | lookml/lookml.py:1735-1742 | a dimension group gets `timeframes` and `type: time` only when the input lacks them |
| Fields.NewField | lookml/lookml.py:1556-1560 | a field from a name or from a bound dictionary (named by its `name`); any other input gives an empty field |
| Fields.RefForms | lookml/lookml.py:1591-1617 | `__ref__` is `${` + `__refr__` + `}`, and the forms follow the current names |
| Fields.RefsInjective | lookml/lookml.py:1596-1598 | different names give different short references |
| Fields.Refs | lookml/lookml.py:1595-1596 | `__refs__`, `${field}`; `RefForms`, `RefsInjective` and `Renames.RefsDiffer` are stated over it |
| Fields.Ref | lookml/lookml.py:1591-1593 | `__ref__`, `${view.field}`, present only when the field has a view; `RefForms` ties it to `Refr` |
| Fields.Refr | lookml/lookml.py:1607-1609 | `__refr__`, `view.field`, present only when the field has a view; `RefForms` ties it to `Ref` |
| Fields.CheckPrimaryKey | lookml/lookml.py:1687-1691 | `isPrimaryKey` raises exactly when the stored `primary_key` is neither a string, a list nor a dictionary; otherwise it answers whether the value is the string `yes` |
| Fields.IsPrimaryKey | lookml/lookml.py:1687-1691 | `isPrimaryKey` when `primary_key` can be read: present and `yes`; `CheckPrimaryKey` shows the raising form agrees with it, and `Mark`/`Unmark` set and clear it |
| Fields.Mark | lookml/lookml.py:1710-1713 | `setPrimaryKey` marks the dimension with `primary_key: yes` |
| Fields.Unmark | lookml/lookml.py:1715-1717 | with `unSetProperty` corrected, `unSetPrimaryKey` drops the `primary_key` property and changes nothing else |
| Fields.UnmarkUndoesMark | lookml/lookml.py:1710-1717 | marking then unmarking an unmarked field restores it |
| Fields.SetDBColumn | lookml/lookml.py:1693-1699 | `setDBColumn` stores the column, sets `sql` to `${TABLE}.` plus the backtick-quoted column, and by default renames the field by `lookCase` |
| Fields.SetField | lookml/lookml.py:1658-1677 | a plain setter overwrites one property and keeps the field valid |
| Fields.Hide | lookml/lookml.py:375-378 | `hide` sets `hidden: yes` |
| Fields.LinksFound | lookml/lookml.py:1726-1732 | a valid field's links are a list |
| Fields.Links | lookml/lookml.py:1726-1732 | the links stored under the repeatable `link` key, oldest first; specified by `LinksFound` and `AddLink` |
| Fields.AddLink | lookml/lookml.py:1726-1732 | links accumulate in order under `link`, each with url, label and icon url |
| Fields.RemoveFirst | lookml/lookml.py:1648 | `list.remove` drops the first occurrence only |
| Fields.RemoveFirstLast | lookml/lookml.py:1648 | removing a just-appended absent element restores the list |
| Fields.AddTag | lookml/lookml.py:1637-1644 | `addTag` sets `[tag]`, appends when absent, or fails on a string, dict or other value |
| Fields.RemoveTag | lookml/lookml.py:1646-1650 | `removeTag` drops the first occurrence; an absent tag is `ValueError`; no tags is a no-op |
| Fields.AddTagEffect | lookml/lookml.py:1637-1644 | after `addTag` the tag is present once, and adding it again changes nothing |
| Fields.RemoveTagUndoesAdd | lookml/lookml.py:1637-1650 | removing a tag just added restores the list |
| Fields.Tags | lookml/lookml.py:1637-1650 | the tags of a field, when they are a list; `AddTag`, `RemoveTag`, `AddTagEffect` and `RemoveTagUndoesAdd` are stated over it |
| Fields.RenderField | lookml/lookml.py:441-449 | `str(field)`: `Base.RenderEntity` with the field's token; `Base.RenderEntityTidy` and `ViewBind.RenderFields` are stated over it |
| Views.Lookup | lookml/lookml.py:727-743 | `field(name)` returns the stored field, or `KeyError` |
| Views.PrimaryKeyField | lookml/lookml.py:852-866 | `getPrimaryKey` gives nothing for an empty key, the named field otherwise |
| Views.UnsetPk | lookml/lookml.py:868-886 | with `unSetProperty` corrected, `unSetPrimaryKey` fails only for a dangling key, unmarks the key's dimension and empties the key |
| Views.SetPk | lookml/lookml.py:825-850 | with `unSetProperty` corrected, `setPrimaryKey` unsets first, then keys and marks a dimension |
| Views.AddFieldTo | lookml/lookml.py:764-783 | with `unSetProperty` corrected, `addField` stores the field under its name, then asks a dimension `isPrimaryKey()` |
| Views.RemoveFieldFrom | lookml/lookml.py:785-810 | with `unSetProperty` corrected, `removeField(name)` asks a dimension `isPrimaryKey()` first, then returns the stored field and unbinds the name |
| Views.UnsetPkEffect | lookml/lookml.py:868-886 | with `unSetProperty` corrected, unsetting raises exactly for a dangling key and then changes nothing; otherwise the key is empty and only its field changed, now unmarked |
| Views.UnsetPkKeepsKinds | lookml/lookml.py:868-886 | unsetting keeps every field's kind |
| Views.SetPkEffect | lookml/lookml.py:825-850 | with `unSetProperty` corrected, succeeds iff the old key resolves and `name` is a field; a dimension becomes the marked key, any other kind leaves the key empty; only those two fields change |
| Views.SetPkConsistent | lookml/lookml.py:825-850 | after `setPrimaryKey` exactly one dimension is marked, the key's |
| Views.UnsetLeavesOnly | lookml/lookml.py:838 | with `unSetProperty` corrected, unsetting unmarks the old key's dimension |
| Views.SetPkKeepsConsistent | lookml/lookml.py:825-850 | with `unSetProperty` corrected, `setPrimaryKey` keeps at most one marked dimension, the key's |
| Views.AddFieldOutcome | lookml/lookml.py:764-783 | with `unSetProperty` corrected, `addField` raises only for a dimension whose `primary_key` cannot be read (`InvalidValue`) or a marked dimension arriving at a dangling key, in both cases after storing it |
| Views.AddFieldStores | lookml/lookml.py:764-783 | the field is found under its name; a marked dimension becomes the key |
| Views.AddFieldKeepsOthers | lookml/lookml.py:764-783 | no other field changes except the old key's dimension |
| Views.AddFieldKeepsConsistent | lookml/lookml.py:764-783 | `addField` keeps one marked dimension, the key's |
| Views.RemoveFieldOutcome | lookml/lookml.py:785-810 | with `unSetProperty` corrected, `removeField` raises exactly for a missing name, a dimension whose `primary_key` cannot be read (`InvalidValue`), or a dangling key under the marked dimension, changing nothing |
| Views.RemoveFieldTakes | lookml/lookml.py:785-810 | with `unSetProperty` corrected, a removal that succeeds was of a stored field whose `primary_key` is readable; it returns that field and unbinds its name; removing the key's dimension empties the key |
| Views.RemoveFieldKeepsOthers | lookml/lookml.py:785-810 | no other field changes except the old key's dimension |
| Views.RemoveFieldKeepsConsistent | lookml/lookml.py:785-810 | `removeField` keeps the table consistent |
| ViewEdits.OfKind | lookml/lookml.py:888-922 | each partition holds the fields of one kind in insertion order |
| ViewEdits.OfKindCount | lookml/lookml.py:888-922 | a field occurs in its own partition as often as in the view, and in no other |
| ViewEdits.PartitionsCover | lookml/lookml.py:888-922 | the five partitions together hold every field exactly once |
| ViewEdits.PartitionSizes | lookml/lookml.py:554-555 | `len(view)` is the sum of the partition sizes |
| ViewEdits.SortMeOrders | lookml/lookml.py:32-34 | `sortMe` orders by name and keeps the same fields |
| ViewEdits.SortMe | lookml/lookml.py:32-34 | `sortMe`: fields sorted by name; specified by `SortMeOrders` |
| ViewEdits.FieldsSorted | lookml/lookml.py:537-549 | `getFieldsSorted`: sorted by the measure flag, then the name; specified by `FieldsSortedOrder` and `FieldsSortedDeterministic` |
| ViewEdits.SortKeyOrder | lookml/lookml.py:549 | measures come last in the sort key, names decide within a group |
| ViewEdits.SortKeyInjective | lookml/lookml.py:549 | different names give different sort keys |
| ViewEdits.FieldsSortedOrder | lookml/lookml.py:537-549 | every field once, non-measures before measures, each group ascending by name |
| ViewEdits.ValuesDistinct | lookml/lookml.py:549 | no two fields of a view share a sort key |
| ViewEdits.FieldsSortedDeterministic | lookml/lookml.py:537-549 | the sorted fields depend only on which fields the view holds |
| ViewEdits.Named | lookml/lookml.py:961 | a field built from its name alone |
| ViewEdits.Typed | lookml/lookml.py:1662-1665 | `setType` overwrites the type |
| ViewEdits.AddUnmarked | lookml/lookml.py:764-783 | adding a field that is not a marked dimension, and whose `primary_key` can be read, stores it and changes nothing else |
| ViewEdits.CountMeasure | lookml/lookml.py:961-962 | `count`, a measure of type `count` |
| ViewEdits.AddCountEffect | lookml/lookml.py:956-964 | `addCount` never fails; `count` is then a count measure, the rest unchanged, and it is idempotent |
| ViewEdits.AddCount | lookml/lookml.py:956-964 | `addCount`: adds the `count` measure; specified by `AddCountEffect` |
| ViewEdits.SumMeasure | lookml/lookml.py:987-988 | `total_<name>`, a measure of type `sum` |
| ViewEdits.AddSumEffect | lookml/lookml.py:981-990 | `addSum` raises `KeyError` for a missing field; otherwise adds the sum measure and changes nothing else |
| ViewEdits.AddSum | lookml/lookml.py:981-990 | `addSum(name)`: looks the field up, then adds `total_<name>`; specified by `AddSumEffect` |
| ViewEdits.CountDistinctMeasure | lookml/lookml.py:975-977 | `count_distinct_<name>` with `sql: ${name}` |
| ViewEdits.AddCountDistinctEffect | lookml/lookml.py:966-979 | `addCountDistinct` raises `KeyError` for a missing field; otherwise adds the count-distinct measure over `${name}` only |
| ViewEdits.AddCountDistinct | lookml/lookml.py:966-979 | `addCountDistinct(name)`: looks the field up, then adds `count_distinct_<name>`; specified by `AddCountDistinctEffect` |
| ViewEdits.TypedDimension | lookml/lookml.py:930-931 | a dimension named after the column with the given type |
| ViewEdits.AddDimensionEffect | lookml/lookml.py:924-933 | `addDimension` never fails; the column names a dimension with only that type; key and others kept |
| ViewEdits.AddDimension | lookml/lookml.py:924-933 | `addDimension(col, type)`: adds a dimension named after the column; specified by `AddDimensionEffect` |
| ViewEdits.HasTypeOfString | lookml/lookml.py:702 | a field typed by string `s` matches type `t` exactly when `s == t` |
| ViewEdits.HasType | lookml/lookml.py:702 | the `type` test in `sumAllNumDimensions`: the field's `type` renders as the given word; specified by `HasTypeOfString` |
| ViewEdits.TotalBinds | lookml/lookml.py:721-725 | binding the total's dictionary names it and keeps `type`, `sql` in order |
| ViewEdits.TotalMeasure | lookml/lookml.py:721-725 | `total_<name>`, of type `sum`, over `${name}` |
| ViewEdits.SumFrom | lookml/lookml.py:718-725 | the loop adds a total for each number dimension lacking one, and stops on a type that cannot render |
| ViewEdits.SumFromKeeps | lookml/lookml.py:718-725 | the loop keeps the key and every field, and only adds |
| ViewEdits.SumFromTotals | lookml/lookml.py:718-725 | when it completes, every number dimension it saw has its total |
| ViewEdits.SumFromAdds | lookml/lookml.py:718-725 | every field it adds is the total of a number dimension it saw |
| ViewEdits.SumFromNothingToDo | lookml/lookml.py:718-725 | nothing changes when every total already exists |
| ViewEdits.SumAllEffect | lookml/lookml.py:704-725 | `sumAllNumDimensions` keeps all fields, adds exactly the missing totals, and a second run changes nothing |
| ViewEdits.SettledOld | lookml/lookml.py:704-725 | a field present before a completed run is settled |
| ViewEdits.SettledNew | lookml/lookml.py:704-725 | a field the run added is settled |
| ViewEdits.SumAllSettled | lookml/lookml.py:704-725 | after a completed run every field is settled |
| ViewEdits.SumAllIdempotent | lookml/lookml.py:704-725 | running `sumAllNumDimensions` twice is running it once |
| ViewEdits.SumAll | lookml/lookml.py:704-725 | `sumAllNumDimensions`: `SumFrom` over the number dimensions; specified by `SumAllEffect`, `SumAllSettled` and `SumAllIdempotent` |
| ViewEdits.HideKindKeeps | lookml/lookml.py:585-595 | a hiding pass keeps names, kinds and identifiers |
| ViewEdits.HideKindGet | lookml/lookml.py:585-595 | a pass hides exactly the fields of its kind |
| ViewEdits.HideKind | lookml/lookml.py:587-594 | one pass of `~view`: hide every field of one kind, in place, keeping order; specified by `HideKindKeeps`, `HideKindGet` and `HideTwice` |
| ViewEdits.Invert | lookml/lookml.py:585-595 | `~view` keeps the table well keyed |
| ViewEdits.Inverted | lookml/lookml.py:585-595 | measures stay, every other field is hidden |
| ViewEdits.InvertGet | lookml/lookml.py:585-595 | `~view` hides every field but the measures, which are unchanged |
| ViewEdits.InvertKeepsConsistent | lookml/lookml.py:585-595 | `~view` keeps the primary key consistent |
| ViewEdits.HideTwice | lookml/lookml.py:375-378 | hiding a hidden field changes nothing |
| ViewEdits.InvertIdempotent | lookml/lookml.py:585-595 | `~~view` equals `~view` on the fields |
| ViewBind.AddItems | lookml/lookml.py:489-532 | `self + Kind(field)` for each item; the first failure stops |
| ViewBind.BindSection | lookml/lookml.py:489-494 | a section's fields are added and the section popped; a non-iterable raises |
| ViewBind.BindSections | lookml/lookml.py:488-533 | the five sections in order: measures, dimensions, filters, dimension groups, parameters |
| ViewBind.NewView | lookml/lookml.py:462-470 | `View(input)`: a string names it; a dict binds sections then name and properties; the table is well keyed and properties regular |
| ViewBind.AddItemsStores | lookml/lookml.py:489-532 | a completed run stored each item under its name and kept every earlier name |
| ViewBind.AddItemsOnly | lookml/lookml.py:489-532 | every name held was there before or names an item |
| ViewBind.AddFieldResolves | lookml/lookml.py:764-783 | on a resolving key `addField` raises only for an unreadable `primary_key`, and the key still resolves |
| ViewBind.AddItemsResolves | lookml/lookml.py:489-532 | binding raises exactly when an item cannot be constructed or is a dimension with an unreadable `primary_key` |
| ViewBind.AddItemsKeepsConsistent | lookml/lookml.py:489-532 | binding keeps the one primary key consistent |
| ViewBind.BindSectionPops | lookml/lookml.py:494 | a bound section is gone, the other entries unchanged |
| ViewBind.BindSectionsPop | lookml/lookml.py:488-533 | no section remains after binding, other entries unchanged |
| ViewBind.BindAbsent | lookml/lookml.py:353-358 | binding never introduces a key neither side has |
| ViewBind.NewViewSections | lookml/lookml.py:488-534 | a view from a dict keeps no section or `name` among its properties, and its key resolves |
| ViewBind.BindSectionResolves | lookml/lookml.py:489-494 | a section keeps the key resolving |
| ViewBind.BindSectionsResolve | lookml/lookml.py:488-533 | every section keeps the key resolving |
| ViewBind.NamedSection | lookml/lookml.py:498-503 | a section listing field names gives a view holding exactly those names |
| ViewBind.Shown | lookml/lookml.py:477 | one property's rendering as a one-element list |
| ViewBind.RenderFields | lookml/lookml.py:478-482 | one text per field, or the first failure |
| ViewBind.Sections | lookml/lookml.py:478-482 | five sections in template order, each sorted by name |
| ViewBind.Section | lookml/lookml.py:478-482 | `stringify(sortMe(self.<kind>s()))`: one kind, sorted by name; specified by `Sections` and `SectionOrderFree` |
| ViewBind.SelectedSplit | lookml/lookml.py:477-483 | the properties without `sets` and the `sets` alone together are all of them |
| ViewBind.ViewPropsSplit | lookml/lookml.py:477-483 | a view's two property lists split `getProperties` |
| ViewBind.RenderSelected | lookml/lookml.py:477-483 | the rendered properties with or without `sets`, or the first failure; `SelectedSplit` is stated over it |
| ViewBind.ViewProps | lookml/lookml.py:477-483 | the view's own properties without its `sets` (or only its `sets`), rendered; specified by `ViewPropsSplit` |
| ViewBind.OfKindSame | lookml/lookml.py:888-922 | the same fields give the same partitions |
| ViewBind.NamesDistinct | lookml/lookml.py:777 | no two fields of a view share a name |
| ViewBind.SectionOrderFree | lookml/lookml.py:478-482 | each section depends only on which fields are held |
| ViewBind.SectionsOrderFree | lookml/lookml.py:478-482 | all five sections depend only on which fields are held |
| ViewBind.RenderViewOrderFree | lookml/lookml.py:472-486 | `str(view)` does not depend on the order fields were added |
| ViewBind.RenderViewTidy | lookml/lookml.py:486 | a rendered view is tidy with no ten blanks in a row |
| ViewBind.ViewBody | lookml/lookml.py:472-485 | the view template filled with the properties and the five sections; `SectionsOrderFree` is stated over it |
| ViewBind.RenderView | lookml/lookml.py:472-486 | `View.__str__` without children: the filled template, tidied; specified by `RenderViewOrderFree` and `RenderViewTidy` |
| ViewBind.ExtendsStringUnprintable | lookml/lookml.py:1062 | a child view whose `extends` is the plain string `extend` stores cannot be printed |
| Renames.RefsDiffer | lookml/lookml.py:1591-1604 | different names give different references of each form |
| Renames.ShortRef | lookml/lookml.py:1595-1596 | `__refs__` of a field named `n`; `RefsDiffer` and `Text.ShortIsNotFull` are stated over it |
| Renames.FullRef | lookml/lookml.py:1591-1593 | `__ref__` of a field named `n` in a view; `RefsDiffer` and `Text.ShortIsNotFull` are stated over it |
| Renames.ShownWraps | lookml/lookml.py:1306-1307 | `sql` renders as its text followed by ` ;;` |
| Renames.SqlText | lookml/lookml.py:1577-1579 | `str(field.sql.value)`, the text the substitutions work on; `ShownWraps` relates it to `SqlShown` |
| Renames.SqlShown | lookml/lookml.py:758-760 | `str(field.getProperty('sql'))`, the text `search` matches; specified by `ShownWraps` |
| Renames.Mentions | lookml/lookml.py:757-760 | the `re.match` test of `search` in `setName_safe`, read as a substring test (see "## Left out"); `MentionsText` and `RewriteAllClears` are stated over it |
| Renames.MentionsText | lookml/lookml.py:758-760 | matching on the rendered property is matching on the sql text |
| Renames.RetargetedDropsOld | lookml/lookml.py:1577-1579 | afterwards the text refers to the old name in neither form |
| Renames.RetargetedAddsNew | lookml/lookml.py:1577-1579 | where the old name was referred to, the new name now is, in that form |
| Renames.RetargetedKeepsOthers | lookml/lookml.py:1577-1579 | other references stay, and none appears |
| Renames.Retargeted | lookml/lookml.py:1578-1579 | the two substitutions, short references first, then full ones; specified by `RetargetedDropsOld`, `RetargetedAddsNew` and `RetargetedKeepsOthers` |
| Renames.Retarget | lookml/lookml.py:1578-1579 | both replacements applied to the sql text |
| Renames.Rewritten | lookml/lookml.py:1577-1579 | a field that mentions the old name is retargeted, others unchanged |
| Renames.RewrittenClears | lookml/lookml.py:1577-1579 | after a step the sql mentions the old name nowhere (first-line matching in the source; see "## Left out") |
| Renames.RewrittenAddsNew | lookml/lookml.py:1577-1579 | after a step the sql mentions the new name where it mentioned the old |
| Renames.SetAtWellKeyed | lookml/lookml.py:1577-1579 | replacing a field by one with the same name keeps the table well keyed |
| Renames.RewriteFrom | lookml/lookml.py:1577-1579 | the rewrite loop from position `i` keeps the keys and the primary key, changes each field only in its `sql`, and leaves the fields before `i` as they were |
| Renames.RewriteFromDone | lookml/lookml.py:1577-1579 | a completed loop rewrote every field from `i` on |
| Renames.RewriteAll | lookml/lookml.py:1577-1579 | the whole loop keeps the keys |
| Renames.RewriteAllClears | lookml/lookml.py:1577-1579 | afterwards no `sql` mentions the old name (first-line matching in the source; see "## Left out") |
| Renames.RewriteAllAddsNew | lookml/lookml.py:1577-1579 | afterwards each `sql` mentions the new name where it mentioned the old |
| Renames.RewriteAllSqlOnly | lookml/lookml.py:1577-1579 | the loop changes no name, kind or mark |
| Renames.RewriteAllKeepsConsistent | lookml/lookml.py:1577-1579 | the loop keeps the primary key consistent |
| Renames.RenameAsWritten | lookml/lookml.py:1568-1582 | `setName_safe` as written: rename, rewrite, `removeField(old)`, `addField` |
| Renames.RenameField | lookml/lookml.py:1568-1582 | `setName_safe` as intended: the same, re-keying a primary-key dimension under its new name |
| Renames.RemoveUnmarked | lookml/lookml.py:804-808 | removing an unmarked field whose `primary_key` can be read only pops it |
| Renames.RemoveMarked | lookml/lookml.py:796-808 | removing the marked field unmarks it, empties the key and pops it |
| Renames.RenameAsWrittenDropsKey | lookml/lookml.py:1580-1581 | as written, renaming the key's dimension leaves no primary key and the dimension unmarked |
| Renames.RenameAsWrittenExample | lookml/lookml.py:1568-1582 | renaming `id` to `user_id` in `users` as written leaves no primary key |
| Renames.RenameUnmarkedSteps | lookml/lookml.py:1568-1582 | the corrected rename of an unmarked field moves it and keeps the key |
| Renames.RenameMarkedSteps | lookml/lookml.py:1568-1582 | the corrected rename of the marked field moves it and marks it as the key again |
| Renames.RenameFieldOutcome | lookml/lookml.py:1568-1582 | the rename fails exactly when the loop fails, no field has the old name, or that field's `primary_key` cannot be read |
| Renames.RenameUnmarkedGet | lookml/lookml.py:1568-1582 | what an unmarked rename leaves under each name |
| Renames.RenameMarkedGet | lookml/lookml.py:1568-1582 | what a marked rename leaves under each name |
| Renames.RenameFieldStores | lookml/lookml.py:1568-1582 | the field is stored under the new name with that identifier, its kind and rewritten sql |
| Renames.RenameFieldKeepsOthers | lookml/lookml.py:1568-1582 | the old name is free and no other field differs from the loop's result |
| Renames.RenameFieldKeepsKey | lookml/lookml.py:1568-1582 | the primary key survives the rename, under the new name when it was the renamed field |
| Renames.RenameFieldClears | lookml/lookml.py:1568-1582 | no `sql` refers to the old name afterwards, for plain names (first-line matching in the source; see "## Left out") |
| ViewObjects.View.constructor | lookml/lookml.py:462-470 | `View(name)`: named, empty, no children or parent |
| ViewObjects.View.FromValue | lookml/lookml.py:462-470 | the object built is the `NewView` state, or the same error |
| ViewObjects.View.BindItems | lookml/lookml.py:489-532 | succeeds exactly when `AddItems` does, and then the view's table is the one `AddItems` gives; nothing but the table changes |
| ViewObjects.View.AddLoop | lookml/lookml.py:491-492 | the loop computes exactly `AddItems`: each item built as a field and added in order, the first failure stopping it |
| ViewObjects.View.BindSection | lookml/lookml.py:489-494 | one section's loop and pop, as `BindSection` |
| ViewObjects.View.BindEntries | lookml/lookml.py:353-358 | the properties become `BindProps` of the entries |
| ViewObjects.View.Has | lookml/lookml.py:597-598 | `__contains__` iff the name is a key |
| ViewObjects.View.FieldNamed | lookml/lookml.py:727-743 | the stored field, or `KeyError` |
| ViewObjects.View.FieldNames | lookml/lookml.py:678-689 | the names in insertion order, each naming its field |
| ViewObjects.View.Length | lookml/lookml.py:554-555 | the field count, which is the sum of the partitions |
| ViewObjects.View.GetPrimaryKey | lookml/lookml.py:852-866 | the key's field, nothing, or `KeyError` |
| ViewObjects.View.GetFieldsSorted | lookml/lookml.py:537-549 | non-measures before measures, each ascending by name |
| ViewObjects.View.AddField | lookml/lookml.py:764-783 | with `unSetProperty` corrected, the new table is `AddFieldTo` of the old |
| ViewObjects.View.RemoveField | lookml/lookml.py:785-810 | with `unSetProperty` corrected, the new table and result are `RemoveFieldFrom` of the old |
| ViewObjects.View.SetPrimaryKey | lookml/lookml.py:825-850 | with `unSetProperty` corrected, the new table is `SetPk` of the old |
| ViewObjects.View.UnSetPrimaryKey | lookml/lookml.py:868-886 | with `unSetProperty` corrected, the new table is `UnsetPk` of the old |
| ViewObjects.View.AddDimension | lookml/lookml.py:924-933 | adds the typed dimension |
| ViewObjects.View.AddCount | lookml/lookml.py:956-964 | adds the count measure |
| ViewObjects.View.AddSum | lookml/lookml.py:981-990 | adds the sum measure or raises `KeyError` |
| ViewObjects.View.AddCountDistinct | lookml/lookml.py:966-979 | adds the count-distinct measure or raises `KeyError` |
| ViewObjects.View.SumAllNumDimensions | lookml/lookml.py:704-725 | the view's table and outcome become `SumFrom` of the snapshot of its fields; nothing but the table changes |
| ViewObjects.View.SumLoop | lookml/lookml.py:718-725 | the loop over the snapshot computes exactly `SumFrom`, adding each missing total and stopping at the first type that cannot be rendered |
| ViewObjects.View.HideAll | lookml/lookml.py:587-594 | one pass hides exactly the fields of its kind, keeping the key and everything outside the table |
| ViewObjects.View.HideLoop | lookml/lookml.py:587-594 | the loop leaves each field of kind `k` hidden and every other field as it was, in the same order |
| ViewObjects.View.Invert | lookml/lookml.py:585-595 | the new table is `Invert` of the old |
| ViewObjects.View.RenameField | lookml/lookml.py:1568-1582 | with `unSetProperty` corrected, the new table is the corrected rename of the old |
| ViewObjects.View.RewriteSql | lookml/lookml.py:1577-1579 | the view's table becomes the rewrite of every `sql` reference to the old name, and the outcome is that rewrite's; nothing but the table changes |
| ViewObjects.View.RewriteLoop | lookml/lookml.py:1577-1579 | the loop over the fields computes exactly the whole-table rewrite, stopping at the first error |
| ViewObjects.View.SetExtensionRequired | lookml/lookml.py:634-647 | sets `extension: required` |
| ViewObjects.View.Extend | lookml/lookml.py:1041-1066 | a fresh child named `name` or `<id>_extended`, extending this view and pointing back; kept as a child when in the same file; with `required`, the properties are those of `setProperty('extension', 'required')`; name, message and parent are unchanged |
| ViewObjects.View.AddChild | lookml/lookml.py:1065 | the child is stored under its name |
| ViewObjects.View.NewChild | lookml/lookml.py:1057-1063 | a fresh, valid, empty view named `name` whose only property is `extends: <parent>` and whose parent is this view |
| ViewObjects.View.RemoveChild | lookml/lookml.py:577-578 | `view - child` pops the child's name and returns what was stored; the view's own name, message, parent, properties and fields are unchanged |
| ViewObjects.View.Render | lookml/lookml.py:472-486 | `str(view)`: the view body then its children |
| ViewObjects.View.RenderChildList | lookml/lookml.py:484 | one text per child, or the first failure |
| Explores.NewJoin | lookml/lookml.py:1071-1077 | `Join(input)`: named by a string, bound from a dict, otherwise empty |
| Explores.SetChecked | lookml/lookml.py:1101-1109 | refused with `AssertionError` iff not in the vocabulary; otherwise only that key is set |
| Explores.SetCheckedIdempotent | lookml/lookml.py:1101-1109 | setting the same value twice is setting it once |
| Explores.JoinVocabularies | lookml/lookml.py:1101-1109 | join types and relationships accept exactly the LookML words |
| Explores.OnClause | lookml/lookml.py:1088-1091 | both full references around the operand; a missing reference raises |
| Explores.FullRef | lookml/lookml.py:1591-1594 | `__ref__` exists iff the view is present and truthy |
| Explores.BindAll | lookml/lookml.py:1137-1138 | the entry loop gives `BindProps` |
| Explores.Join.constructor | lookml/lookml.py:1071-1077 | `Join(name)` |
| Explores.Join.FromValue | lookml/lookml.py:1071-1077 | the object's state is `NewJoin`'s, or the same error |
| Explores.Join.SetFrom | lookml/lookml.py:1079-1081 | sets `_from` only |
| Explores.Join.SetTo | lookml/lookml.py:1083-1086 | sets `to` only |
| Explores.Join.SetOn | lookml/lookml.py:1093-1095 | sets `sql_on` |
| Explores.Join.SetSql | lookml/lookml.py:1097-1099 | sets `sql` |
| Explores.Join.On | lookml/lookml.py:1088-1091 | sets `sql_on` to `OnClause`, or raises before any change |
| Explores.Join.SetType | lookml/lookml.py:1101-1104 | a join type is set; anything else raises and changes nothing |
| Explores.Join.SetRelationship | lookml/lookml.py:1106-1109 | a relationship is set; anything else raises and changes nothing |
| Explores.Join.Hide | lookml/lookml.py:1111-1114 | sets an empty `view_label` |
| Explores.Join.Render | lookml/lookml.py:441-449 | renders iff its properties do |
| Explores.Join.RenderTidy | lookml/lookml.py:441-449 | a rendered join is tidy with no long whitespace run |
| Explores.NewExplore | lookml/lookml.py:1123-1138 | `Explore(input)`: name, then joins, then properties; a string names it |
| Explores.ExploreJoinCount | lookml/lookml.py:1133-1141 | `len(explore)` is the number of distinct join names |
| Explores.ExploreBinding | lookml/lookml.py:1130-1138 | no `name` or `joins` property remains; each join is the last item of its name |
| Explores.JoinsSection | lookml/lookml.py:1133-1136 | the `joins` section: absent, or an iterable whose items become joins, registered by name; `ExploreJoinCount` and `ExploreBinding` are stated over it |
| Explores.PutMirrors | lookml/lookml.py:1207 | storing a join object and its state under one name keeps them in step |
| Explores.ExploreTextShows | lookml/lookml.py:1143-1151 | the explore text contains every rendered join |
| Explores.ExploreText | lookml/lookml.py:1143-1151 | the explore template filled with the rendered properties and joins; specified by `ExploreTextShows` |
| Explores.Explore.constructor | lookml/lookml.py:1123-1127 | `Explore(name)` |
| Explores.Explore.FromValue | lookml/lookml.py:1123-1138 | the object mirrors `NewExplore`, or the same error |
| Explores.Explore.BindJoins | lookml/lookml.py:1133-1136 | the joins become those `Register` gives |
| Explores.Explore.BindJoin | lookml/lookml.py:1135 | one join stored under its name |
| Explores.Explore.Length | lookml/lookml.py:1140-1141 | the number of distinct join names |
| Explores.Explore.GetJoin | lookml/lookml.py:1223-1224 | the stored join, or none |
| Explores.Explore.AddJoin | lookml/lookml.py:1205-1208 | the join is stored under its name and `getJoin` finds it |
| Explores.Explore.AddViewJoin | lookml/lookml.py:1209-1214 | a fresh join named after the view and leading to it is stored |
| Explores.Explore.SetViewName | lookml/lookml.py:1202-1203 | sets `view_name` |
| Explores.Explore.JoinTexts | lookml/lookml.py:1148 | one rendering per join, in order |
| Explores.Explore.Render | lookml/lookml.py:1143-1151 | `str(explore)`: `ExploreText` of its properties and joins, not tidied; specified by `RenderShowsJoins` |
| Explores.Explore.RenderShowsJoins | lookml/lookml.py:1143-1151 | an explore renders iff its properties and joins do, and its text holds each join's rendering |
| Files.Split | lookml/lookml.py:153 | `split` gives at least one piece, none holding the separator |
| Files.SplitPlain | lookml/lookml.py:153 | text without the separator is one piece |
| Files.JoinSplit | lookml/lookml.py:153-159 | joining the pieces gives the text back |
| Files.SplitJoin | lookml/lookml.py:153-159 | splitting joined pieces gives them back |
| Files.FileType | lookml/lookml.py:203-206 | the file type has no dot |
| Files.FileTypeAccepts | lookml/lookml.py:203-206 | a name is accepted iff it ends in `lkml` and has a dot |
| Files.GeneratedNames | lookml/lookml.py:166-182 | `<id>.view.lkml` and `<id>.model.lkml` have that type and base name `<id>` |
| Files.BaseName | lookml/lookml.py:154-159 | `base_name` of a file on disk: the name without a dot, the part before one dot, else all but the last two dot-separated parts; `GeneratedNames` is stated over it |
| Files.FolderPathOneSlash | lookml/lookml.py:295-297 | the path is the folder without its trailing slash, one slash, the name |
| Files.FolderPath | lookml/lookml.py:295-297 | `setFolder`'s path; specified by `FolderPathOneSlash` |
| Files.PathBase | lookml/lookml.py:152 | `os.path.basename`: what follows the last slash; `File.FromPath` is stated over it |
| Files.ListedView | lookml/lookml.py:80-84 | a listed non-dict item raises `AttributeError` |
| Files.ListedExplore | lookml/lookml.py:116-120 | a listed non-dict item raises `AttributeError` |
| Files.CollectionRegistry | lookml/lookml.py:69-72 | a listed section holds one entry per distinct name, each the last of its name |
| Files.Collection | lookml/lookml.py:208-219 | a view or explore section of parsed content: absent, or an iterable of items to register; specified by `CollectionRegistry`, `ListedView` and `ListedExplore` |
| Files.OpenedShape | lookml/lookml.py:208-220 | an opened file's views are its section and its properties hold no collection |
| Files.OpenedViews | lookml/lookml.py:208-213 | every listed view is a dict, one view per distinct name, each the last of its name |
| Files.OpenState | lookml/lookml.py:202-220 | `File.__init__` on parsed content: the type, the view and explore sections, and the remaining properties; specified by `OpenedShape`, `OpenedViews` and `File.Open` |
| Files.BoundViews | lookml/lookml.py:263-268 | a merged view is stored unless later replaced; other names keep their entries |
| Files.AddEntriesRegular | lookml/lookml.py:275-276 | setting entries on regular properties never fails and keeps them regular |
| Files.AddEntries | lookml/lookml.py:275-276 | `setProperty` for each remaining entry in order; specified by `AddEntriesRegular` |
| Files.BindPlain | lookml/lookml.py:263-276 | merging content without collections only sets properties |
| Files.BindState | lookml/lookml.py:263-276 | `_bind_lkml`: views, then explores, into the registries; the rest become properties; specified by `BoundViews`, `BindPlain` and `File.BindLkml` |
| Files.AddThenRemove | lookml/lookml.py:80-90 | adding a new name then removing it restores the collection; re-adding keeps positions |
| Files.ViewStates | lookml/lookml.py:65-99 | one snapshot per stored view, under the same names |
| Files.ExploreStates | lookml/lookml.py:101-135 | one summary per stored explore, under the same names |
| Files.PutViewState | lookml/lookml.py:83 | storing a view object stores its snapshot |
| Files.PutExploreState | lookml/lookml.py:119 | storing an explore object stores its summary |
| Files.File.constructor | lookml/lookml.py:137 | a file with its names set and empty contents |
| Files.File.Open | lookml/lookml.py:202-220 | the file type, collections and properties are `OpenState`'s, or the same error |
| Files.File.FromPath | lookml/lookml.py:149-165 | named by the last path component with its `base_name`; contents as `OpenState` |
| Files.File.FromView | lookml/lookml.py:166-175 | named `<id>.view.lkml`, type `view`, base name the id |
| Files.File.FromExplore | lookml/lookml.py:177-186 | named `<id>.model.lkml`, type `model`, base name the id |
| Files.File.GetView | lookml/lookml.py:74-78 | the stored view, or `KeyError` |
| Files.File.GetExplore | lookml/lookml.py:110-114 | the stored explore, or `KeyError` |
| Files.File.AddView | lookml/lookml.py:255-257 | the view is stored under its name and found there |
| Files.File.AddExplore | lookml/lookml.py:259-261 | the explore is stored under its name and found there |
| Files.File.RemoveView | lookml/lookml.py:86-90 | a missing name raises `KeyError`; otherwise only that name is removed |
| Files.File.RemoveExplore | lookml/lookml.py:122-126 | a missing name raises `KeyError`; otherwise only that name is removed |
| Files.File.AddViewItem | lookml/lookml.py:80-84 | one item stored as its view, or the item's error |
| Files.File.AddExploreItem | lookml/lookml.py:116-120 | one item stored as its explore, or the item's error |
| Files.File.AddViewItems | lookml/lookml.py:69-72 | the loop leaves the collection `Register` gives |
| Files.File.AddExploreItems | lookml/lookml.py:105-108 | the loop leaves the collection `Register` gives |
| Files.File.AddViewSection | lookml/lookml.py:208-213 | the section's views are added, or a non-iterable raises |
| Files.File.AddExploreSection | lookml/lookml.py:214-219 | the section's explores are added, or a non-iterable raises |
| Files.File.SetProperty | lookml/lookml.py:290-293 | the properties become `AddProp` of the old, or stay on `AttributeError` |
| Files.File.SetSha | lookml/lookml.py:251-253 | sets `sha` only |
| Files.File.SetFolder | lookml/lookml.py:295-297 | the path is the folder joined to the name by one slash |
| Files.File.BindLkml | lookml/lookml.py:263-276 | the new contents are `BindState` of the old, or the same error |
| Files.File.SetEntries | lookml/lookml.py:275-276 | the properties become `AddEntries` of the old |

## Left out

- Parsing and printing LookML text: `lkml.load` is an external parser. Parsed content is a parameter of type `Value`.
  - `File(view)` and `File(explore)` take the parsed rendering as an argument.
  - `base.__add__`, `View.__add__` with long strings, `Explore.__add__` with strings, and `File.__add__` routing are left out.
- File I/O, GitHub and paths:
  - `File.write` and `File.__str__`;
  - GitHub content files, including their base64 decoding and the `replace` chain that gives them a base name;
  - the `open` of a path;
  - `os.path.relpath` (the path is kept as given);
  - `os.path.isfile` dispatch.
- Python regular expressions:
  - `search` is modelled as "the sql text contains the reference anywhere". The source's `re.match('.*X.*')` without DOTALL only looks at the first line of the rendered property.
  - The escaped reference patterns are modelled as plain substrings.
  - `parseReferences` is left out.
  - Identifiers inserted into the patterns are taken to have no regex metacharacters.
- Dynamic dispatch: `__getattr__`, `__setattr__`, `__iter__`, `__next__`, `__repr__` (with `hex(id(...))`), `__getitem__` routing and `rawProp`. Explicit accessors stand in for them.
- Field objects are values held by their view. Aliasing between a field object and the view that holds it is not modelled.
- Broken or stub code paths:
  - `addAverage` (calls `Measure` with unsupported keywords);
  - `unHide` (calls a missing `delProperty`);
  - `createNDT` (a stub);
  - `setTier` (inverted branches);
  - `addComparisonPeriod` (multi-line SQL templates built by attribute lookup);
  - `addFields`, `getFieldsByTag`, `setAllLabels`, `sql_nvl` and `setDescription` are thin loops or setters over modelled operations.
- `extend`'s unnamed positional-argument branch: only `name`, or the default `<id>_extended`, is modelled.
- `Properties.__str__` on an `allowed_values` collection: the empty list (where `schema[0]` raises `IndexError`) and the fall-through to `None` for an unknown tag are modelled as errors. A non-empty `allowed_values` list renders as the source does.
- Text.Lower: `str.lower()` is modelled on ASCII letters only. Python also lowers other capitals (`'Ä'` to `'ä'`), and `'İ'.lower()` is two characters long, so the model's "keeps the length" holds only for ASCII text.
- Text.SnakeCase: the final lowering is ASCII-only, as for `Text.Lower`.
- Text.SnakeCaseIdempotent: stated for text without ASCII capitals; a non-ASCII capital is lowered by Python and kept by the model.
- Text.LookCase: the lowering inside is ASCII-only, as for `Text.Lower`. Whitespace is Python's full `\s` set.
- Text.LookCaseClean: "no capitals" means no ASCII capitals.
- Fields.SetDBColumn: the new name comes from `lookCase`, whose lowering is ASCII-only.
- Props.AddToList: membership compares values structurally. A dictionary compares in its insertion order, and all values that are not strings, lists or dictionaries compare equal. Python's `==` ignores dictionary order and compares such values by their own equality.
- Views.SetPk: only the by-name path of `setPrimaryKey` is modelled. Passed a `Dimension` object, the source marks that object and keys the view by its name without checking that the view holds it.
- Views.SetPkEffect: stated for the by-name path, where the call succeeds only if `name` is a field. The object path has no such check.
- ViewObjects.View.SetPrimaryKey: the by-name path only, as for `Views.SetPk`.
- ViewEdits.AddSumEffect: only `addSum(name)` is modelled. `addSum(field)` builds the measure from the object without a lookup, so it cannot raise `KeyError`.
- ViewEdits.AddCountDistinctEffect: only `addCountDistinct(name)` is modelled. The Field-object path skips the lookup.
- ViewObjects.View.AddSum: the by-name path only, as for `ViewEdits.AddSumEffect`.
- ViewObjects.View.AddCountDistinct: the by-name path only, as for `ViewEdits.AddCountDistinctEffect`.
- Base.BindEntity, ViewBind.NewView, ViewObjects.View.FromValue, Explores.NewExplore, Explores.Explore.FromValue: a `name` that is not a string is refused with `TypeError`. Python stores the object as the identifier, and `string.Template.substitute` applies `str()` to it, so the entity still renders. What fails in Python is the `splice`-built references (`__ref__`, `__refs__`) and `sortMe` over names of mixed types; the model, whose identifiers are strings, does not reach those.
- ViewBind.ExtendsStringUnprintable: `extend` stores `extends` as a plain string, which the bracket shape cannot print. The model records this, and `extend`'s child is not printable. Lists of parents read from LookML print as designed.
- `removeField` is modelled by name. Its Field-object path calls `isPrimaryKey` on fields that are not dimensions.
- A view whose `name` was set as a property (not by binding) used in `addJoin(view)`: the join is named by the view's identifier.
- Files.ExploreSummary: an explore held by a file is described by its name, properties and join names. The joins' own properties are specified on `Explores.Explore`.
- Partial state after an exception: when a loop raises midway (binding, rename, merging), the methods do not state what was already applied.
- Files.FileType: the source tests `endswith('lkml')`, not `'.lkml'`, so `foo.xlkml` has type `foo`. The model follows the code.
- ViewObjects.View.SumAllNumDimensions, ViewObjects.View.RewriteSql, ViewObjects.View.BindItems and ViewObjects.View.HideAll run their loops over the field table as a value (`SumLoop`, `RewriteLoop`, `AddLoop`, `HideLoop`) and store the result back once. Nothing else reads the view during the loop, so the final state is the same. The individual in-place updates are not modelled one by one.
- Fields.Unmark, Views.UnsetPk, Views.UnsetPkEffect, Views.SetPk, Views.SetPkEffect, Views.AddFieldTo, Views.AddFieldOutcome, Views.RemoveFieldFrom, Views.RemoveFieldOutcome, ViewObjects.View.AddField, ViewObjects.View.RemoveField, ViewObjects.View.SetPrimaryKey, ViewObjects.View.UnSetPrimaryKey, ViewObjects.View.RenameField: these model the corrected `unSetProperty` of the lookml.py:406 finding (a pop, `Base.UnsetProp`). As written, each one raises `AttributeError` wherever a dimension key is unset: `View.unSetPrimaryKey` reaches the call for any view whose key names a dimension, marked or not. The lemmas about these operations (`UnsetPkEffect`, `SetPkEffect`, `AddFieldOutcome`, `RemoveFieldOutcome`, the rename lemmas) state the corrected behaviour too; `Base.UnsetAsWrittenRaises` records the as-written raise.
- Props.Properties.IsMember: on a dictionary schema a list or dictionary argument is answered `false`, where Python's `in self.schema.keys()` raises `TypeError` for an unhashable value. Every caller (lookml.py:1638, 1647, 1737, 1739) passes a string constant, so that case is not reached.
- Fixed-width integers, concurrency and floating point do not occur in the modelled code.

## Findings

| source | as written | input that shows it | evidently intended | confidence | as-written member | corrected member |
|---|---|---|---|---|---|---|
| lookml/lookml.py:406 | `unSetProperty` calls `self.properties.__del__(name)`; `Properties` defines no `__del__` and no `__getattr__`, so the call raises `AttributeError` | `Dimension('id').setPrimaryKey().unSetPrimaryKey()`; and through `View.unSetPrimaryKey` (lookml.py:884), any view whose `primaryKey` names a dimension, marked or not: its `unSetPrimaryKey`, a further `setPrimaryKey`, `addField` of a marked dimension, `removeField` of a marked field, and `setName_safe` of the key | the property is removed, as `Properties.__delete__` does | high (not executed) | Base.UnsetAsWrittenRaises | Base.UnsetProp |
| lookml/lookml.py:1580-1581 | with `unSetProperty` corrected, `setName_safe` calls `removeField(old)`, which unsets the view's primary key when the field is the marked key, then re-adds the now unmarked field | a view `users` whose primary-key dimension `id` is renamed to `user_id` | the renamed dimension stays the view's primary key under its new name | high (not executed) | Renames.RenameAsWrittenDropsKey | Renames.RenameFieldKeepsKey |

/**
 Editing one key of a layer's file. The document keeps what the data model
 forgets: the decoration of a value, and whether a table has its own header.
 Inline tables are values here, as they are in the document.
 */
module ConfigEdit {
  import opened Common
  import opened Json
  import opened KeyPath
  import opened ConfigMerge
  import opened ConfigLoad

  datatype Item =
    | Val(data: Value, decor: string)
    | Tab(entries: map<string, Item>, implicit: bool)
    | Tables(rows: seq<Value>)

  datatype EditError = NotALeaf | NotStorable

  /** The data a document holds. */
  function Plain(item: Item): Value {
    match item
    case Val(data, _) => data
    case Tab(entries, _) => Obj(map k | k in entries :: Plain(entries[k]))
    case Tables(rows) => Arr(rows)
  }

  /** The item at a path, through tables with headers only. */
  function ItemAt(item: Item, path: Path): Option<Item>
    decreases |path|
  {
    if path == [] then Some(item)
    else if item.Tab? && path[0] in item.entries then ItemAt(item.entries[path[0]], path[1..])
    else None
  }

  // ------------------------------------------------------------ insert and remove

  /** What stands at the last segment afterwards: a value keeps the decoration of the value it replaces. */
  function Placed(existing: Option<Item>, item: Item): Result<Item, EditError> {
    if existing.Some? && existing.value.Tab? && item.Val? then Err(NotALeaf)
    else if existing.Some? && existing.value.Val? && item.Val? then Ok(item.(decor := existing.value.decor))
    else Ok(item)
  }

  function Entry(table: Item, key: string): Option<Item>
    requires table.Tab?
  {
    if key in table.entries then Some(table.entries[key]) else None
  }

  function Insert(table: Item, segments: Path, item: Item): (r: Result<Item, EditError>)
    requires table.Tab? && segments != []
    ensures r.Ok? ==> r.value.Tab?
    decreases |segments|
  {
    var s := segments[0];
    if |segments| == 1 then
      match Placed(Entry(table, s), item)
      case Err(e) => Err(e)
      case Ok(placed) => Ok(table.(entries := table.entries[s := placed]))
    else
      // A table made on the way gets no header of its own.
      var next := if s in table.entries then table.entries[s] else Tab(map[], true);
      if !next.Tab? then Err(NotALeaf)
      else
        match Insert(next, segments[1..], item)
        case Err(e) => Err(e)
        case Ok(below) => Ok(table.(entries := table.entries[s := below]))
  }

  function Remove(table: Item, segments: Path): (r: Item)
    requires table.Tab? && segments != []
    ensures r.Tab?
    decreases |segments|
  {
    var s := segments[0];
    if s !in table.entries then table
    else if |segments| == 1 then table.(entries := table.entries - {s})
    else if !table.entries[s].Tab? then table
    else table.(entries := table.entries[s := Remove(table.entries[s], segments[1..])])
  }

  /** Something other than a table is in the way. */
  predicate Blocked(table: Item, segments: Path) {
    exists n | 0 < n < |segments| :: ItemAt(table, segments[..n]).Some? && !ItemAt(table, segments[..n]).value.Tab?
  }

  predicate IsTable(table: Item, path: Path) {
    ItemAt(table, path).Some? && ItemAt(table, path).value.Tab?
  }

  lemma {:induction false} BlockedBelow(table: Item, segments: Path)
    requires table.Tab? && |segments| > 1 && segments[0] in table.entries
    ensures var next := table.entries[segments[0]];
            Blocked(table, segments) <==> !next.Tab? || Blocked(next, segments[1..])
  {
    var next, rest := table.entries[segments[0]], segments[1..];
    assert ItemAt(table, segments[..1]) == ItemAt(next, segments[..1][1..]);
    forall n | 0 < n < |rest| ensures ItemAt(table, segments[..n + 1]) == ItemAt(next, rest[..n]) {
      assert segments[..n + 1][1..] == rest[..n];
    }
    if Blocked(table, segments) && next.Tab? {
      var n :| 0 < n < |segments| && ItemAt(table, segments[..n]).Some? && !ItemAt(table, segments[..n]).value.Tab?;
      assert n > 1 && ItemAt(next, rest[..n - 1]) == ItemAt(table, segments[..n]);
    }
    if next.Tab? && Blocked(next, rest) {
      var n :| 0 < n < |rest| && ItemAt(next, rest[..n]).Some? && !ItemAt(next, rest[..n]).value.Tab?;
      assert ItemAt(table, segments[..n + 1]) == ItemAt(next, rest[..n]);
    }
  }

  lemma {:induction false} NothingBelow(table: Item, segments: Path)
    requires table.Tab? && segments != [] && segments[0] !in table.entries
    ensures !Blocked(table, segments) && ItemAt(table, segments).None?
  {}

  /** An insert fails exactly when a value is in the way, or a value would replace a table. */
  lemma {:induction false} InsertFailsExactly(table: Item, segments: Path, item: Item)
    requires table.Tab? && segments != []
    ensures Insert(table, segments, item).Err? <==>
            Blocked(table, segments) || (item.Val? && IsTable(table, segments))
    decreases |segments|
  {
    var s, rest := segments[0], segments[1..];
    if |segments| == 1 {
      assert ItemAt(table, segments) == Entry(table, s);
    } else if s in table.entries {
      BlockedBelow(table, segments);
      if table.entries[s].Tab? {
        InsertFailsExactly(table.entries[s], rest, item);
      }
    } else {
      NothingBelow(table, segments);
      NothingBelow(Tab(map[], true), rest);
      InsertFailsExactly(Tab(map[], true), rest, item);
    }
  }

  /** The key then looks up to the new item. */
  lemma {:induction false} InsertReadsBack(table: Item, segments: Path, item: Item)
    requires table.Tab? && segments != [] && Insert(table, segments, item).Ok?
    ensures Placed(ItemAt(table, segments), item).Ok?
    ensures ItemAt(Insert(table, segments, item).value, segments) == Some(Placed(ItemAt(table, segments), item).value)
    decreases |segments|
  {
    var s, rest := segments[0], segments[1..];
    if |segments| == 1 {
      assert ItemAt(table, segments) == Entry(table, s);
    } else {
      var next := if s in table.entries then table.entries[s] else Tab(map[], true);
      InsertReadsBack(next, rest, item);
    }
  }

  /** Nothing off the path changes, decoration and headers included. */
  lemma {:induction false} InsertKeepsTheRest(table: Item, segments: Path, item: Item, q: Path)
    requires table.Tab? && segments != [] && Insert(table, segments, item).Ok?
    ensures Unrelated(segments, q) ==> ItemAt(Insert(table, segments, item).value, q) == ItemAt(table, q)
    ensures q < segments ==> IsTable(Insert(table, segments, item).value, q)
    ensures q < segments ==> ItemAt(table, q).None? || IsTable(table, q)
    ensures q < segments ==>
              ItemAt(Insert(table, segments, item).value, q).value.implicit ==
              (IsTable(table, q) ==> ItemAt(table, q).value.implicit)
    decreases |segments|
  {
    var s, rest := segments[0], segments[1..];
    if q != [] && q[0] == s && |segments| > 1 {
      var next := if s in table.entries then table.entries[s] else Tab(map[], true);
      InsertKeepsTheRest(next, rest, item, q[1..]);
      if Unrelated(segments, q) {
        UnrelatedTails(segments, q);
      }
    }
  }

  lemma {:induction false} PlainUpdate(entries: map<string, Item>, implicit: bool, s: string, item: Item)
    ensures Plain(Tab(entries[s := item], implicit)) == Obj(Plain(Tab(entries, implicit)).fields[s := Plain(item)])
  {
    assert Plain(Tab(entries[s := item], implicit)).fields == Plain(Tab(entries, implicit)).fields[s := Plain(item)];
  }

  /** On the data, an insert is the loader's own leaf assignment. */
  lemma {:induction false} InsertSets(table: Item, segments: Path, item: Item)
    requires table.Tab? && segments != [] && Insert(table, segments, item).Ok?
    ensures Plain(Insert(table, segments, item).value) == SetLeaf(Plain(table), segments, Plain(item))
    decreases |segments|
  {
    var s, rest := segments[0], segments[1..];
    var after := Insert(table, segments, item).value;
    PlainUpdate(table.entries, table.implicit, s, after.entries[s]);
    if |segments| > 1 {
      var next := if s in table.entries then table.entries[s] else Tab(map[], true);
      InsertSets(next, rest, item);
      assert Plain(Tab(map[], true)) == Obj(map[]);
    }
  }

  /** `remove` deletes exactly the subtree, where it can be reached through tables. */
  lemma {:induction false} RemoveDeletesTheSubtree(table: Item, segments: Path, q: Path)
    requires table.Tab? && segments != []
    ensures segments <= q ==> ItemAt(Remove(table, segments), q).None?
    ensures Unrelated(segments, q) ==> ItemAt(Remove(table, segments), q) == ItemAt(table, q)
    decreases |segments|
  {
    var s, rest := segments[0], segments[1..];
    if q != [] && q[0] == s && s in table.entries && |segments| > 1 && table.entries[s].Tab? {
      RemoveDeletesTheSubtree(table.entries[s], rest, q[1..]);
      if Unrelated(segments, q) {
        UnrelatedTails(segments, q);
      }
    }
  }

  /** A key that was absent, below tables that were there, comes and goes without a trace. */
  lemma {:induction false} RemoveUndoesInsert(table: Item, segments: Path, item: Item)
    requires table.Tab? && segments != []
    requires IsTable(table, segments[..|segments| - 1])
    requires ItemAt(table, segments).None?
    ensures Insert(table, segments, item).Ok? && Remove(Insert(table, segments, item).value, segments) == table
    decreases |segments|
  {
    var s, rest := segments[0], segments[1..];
    if |segments| == 1 {
      assert Entry(table, s).None?;
      assert table.entries[s := item] - {s} == table.entries;
    } else {
      assert segments[..|segments| - 1][1..] == rest[..|rest| - 1];
      assert IsTable(table.entries[s], rest[..|rest| - 1]);
      RemoveUndoesInsert(table.entries[s], rest, item);
      assert table.entries[s := table.entries[s]] == table.entries;
    }
  }

  /** Inside an inline table a removal silently does nothing. */
  lemma {:induction false} BlockedRemovalDoesNothing(table: Item, segments: Path)
    requires table.Tab? && segments != [] && Blocked(table, segments)
    ensures Remove(table, segments) == table
    decreases |segments|
  {
    var s, rest := segments[0], segments[1..];
    if s in table.entries {
      BlockedBelow(table, segments);
      if table.entries[s].Tab? {
        BlockedRemovalDoesNothing(table.entries[s], rest);
        assert table.entries[s := table.entries[s]] == table.entries;
      }
    }
  }

  /** So a removal takes effect exactly when no inline table or list is on the way. */
  lemma {:induction false} RemovalTakesEffectIff(table: Item, segments: Path)
    requires table.Tab? && segments != []
    ensures At(Plain(Remove(table, segments)), segments).None? <==>
            At(Plain(table), segments).None? || !Blocked(table, segments)
    decreases |segments|
  {
    var s, rest := segments[0], segments[1..];
    if Blocked(table, segments) {
      BlockedRemovalDoesNothing(table, segments);
    } else if s in table.entries && |segments| > 1 {
      BlockedBelow(table, segments);
      RemovalTakesEffectIff(table.entries[s], rest);
    }
  }

  /** The input that shows it: a member of an inline table is there before the removal and after. */
  lemma InlineMemberStays()
    ensures var table := Tab(map["a" := Val(Obj(map["b" := Num(1.0)]), "")], false);
            && At(Plain(table), ["a", "b"]) == Some(Num(1.0))
            && Remove(table, ["a", "b"]) == table
            && At(Plain(Remove(table, ["a", "b"])), ["a", "b"]) == Some(Num(1.0))
  {
    var inline := Val(Obj(map["b" := Num(1.0)]), "");
    var table := Tab(map["a" := inline], false);
    assert ["a", "b"][1..] == ["b"] && ["b"][1..] == [];
    assert Plain(table).fields["a"] == Obj(map["b" := Num(1.0)]);
  }

  // ------------------------------------------------------------ values to store

  /** Lists hold neither tables nor nulls; a null member of a table is left out. */
  predicate Storable(v: Value) {
    match v
    case Arr(items) => forall i | 0 <= i < |items| :: !items[i].Null? && !items[i].Obj? && Storable(items[i])
    case Obj(fields) => forall k | k in fields :: Storable(fields[k])
    case _ => true
  }

  function Pruned(v: Value): Value {
    if v.Obj? then Obj(map k | k in v.fields && !v.fields[k].Null? :: Pruned(v.fields[k])) else v
  }

  /** `to_toml`. */
  function ToToml(v: Value): Result<Value, EditError> {
    match v
    case Arr(items) =>
      if exists i | 0 <= i < |items| :: ToToml(items[i]).Err? then Err(NotStorable)
      else Ok(Arr(seq(|items|, i requires 0 <= i < |items| => ToToml(items[i]).value)))
    case Null => Err(NotStorable)
    case Obj(_) => Err(NotStorable)
    case _ => Ok(v)
  }

  /** `to_table` for an object, a bare value otherwise. */
  function ToItem(v: Value): Result<Item, EditError>
    requires !v.Null?
  {
    match v
    case Obj(fields) =>
      if exists k | k in fields :: !fields[k].Null? && ToItem(fields[k]).Err? then Err(NotStorable)
      else Ok(Tab(map k | k in fields && !fields[k].Null? :: ToItem(fields[k]).value, false))
    case _ => if ToToml(v).Ok? then Ok(Val(ToToml(v).value, "")) else Err(NotStorable)
  }

  lemma {:induction false} TomlKeeps(v: Value)
    requires !v.Null? && !v.Obj?
    ensures if Storable(v) then ToToml(v) == Ok(v) else ToToml(v).Err?
  {
    if v.Arr? {
      forall i | 0 <= i < |v.items| && !v.items[i].Null? && !v.items[i].Obj?
        ensures if Storable(v.items[i]) then ToToml(v.items[i]) == Ok(v.items[i]) else ToToml(v.items[i]).Err?
      {
        TomlKeeps(v.items[i]);
      }
      if Storable(v) {
        assert ToToml(v).Ok?;
        assert ToToml(v).value.items == v.items;
      }
    }
  }

  /** A storable value is stored as it is, up to the nulls of its tables; nothing else is stored. */
  lemma {:induction false} ItemKeeps(v: Value)
    requires !v.Null?
    ensures if Storable(v) then ToItem(v).Ok? && Plain(ToItem(v).value) == Pruned(v) else ToItem(v).Err?
    ensures ToItem(v).Ok? ==> (ToItem(v).value.Tab? <==> v.Obj?) && (ToItem(v).value.Val? <==> !v.Obj?)
  {
    if v.Obj? {
      forall k | k in v.fields && !v.fields[k].Null?
        ensures if Storable(v.fields[k]) then ToItem(v.fields[k]).Ok? && Plain(ToItem(v.fields[k]).value) == Pruned(v.fields[k])
                else ToItem(v.fields[k]).Err?
      {
        ItemKeeps(v.fields[k]);
      }
      if Storable(v) {
        assert ToItem(v).Ok?;
        assert Plain(ToItem(v).value).fields == Pruned(v).fields;
      } else {
        var k :| k in v.fields && !Storable(v.fields[k]);
        assert !v.fields[k].Null? && ToItem(v.fields[k]).Err?;
      }
    } else {
      TomlKeeps(v);
    }
  }

  // ------------------------------------------------------------ setting a key

  /** The file before the edit; a missing one is an empty document. */
  datatype Document = NoFile | LockedFile | GarbledFile | Loaded(root: Item)

  datatype SetError = Edit(edit: EditError) | Config(config: ConfigError)

  function Root(document: Document): Item {
    if document.Loaded? then document.root else Tab(map[], false)
  }

  /** The document after the edit. */
  function Edited(root: Item, segments: Path, value: Value): (r: Result<Item, EditError>)
    requires root.Tab? && segments != []
    ensures r.Ok? ==> r.value.Tab?
  {
    if value.Null? then Ok(Remove(root, segments))
    else
      match ToItem(value)
      case Err(e) => Err(e)
      case Ok(item) => Insert(root, segments, item)
  }

  /** What setting a key comes to: the document to write, or the first fault. */
  function SetOutcome(
      document: Document, source: Source, key: string, value: Value, defaults: Value, valid: Value -> bool)
    : Result<Item, SetError>
    requires document.Loaded? ==> document.root.Tab?
  {
    match Parsed(key)
    case Err(reason) => Err(Config(Malformed(reason)))
    case Ok(segments) =>
      if document.LockedFile? then Err(Config(Unreadable))
      else if document.GarbledFile? then Err(Config(Syntax))
      else
        SegmentsAreQuoteFree(key);
        match Edited(Root(document), segments, value)
        case Err(e) => Err(Edit(e))
        case Ok(root) =>
          var failure := LayerFailure(defaults, defaults, Plain(root), source, valid);
          if failure.Some? then Err(Config(failure.value)) else Ok(root)
  }

  /** Something can be stored there. */
  predicate Editable(root: Item, segments: Path, value: Value) {
    value.Null?
    || (Storable(value) && !Blocked(root, segments) && (value.Obj? || !IsTable(root, segments)))
  }

  lemma {:induction false} EditedIff(root: Item, segments: Path, value: Value)
    requires root.Tab? && segments != []
    ensures Edited(root, segments, value).Ok? <==> Editable(root, segments, value)
    ensures Edited(root, segments, value).Ok? && !value.Null? ==>
              Plain(Edited(root, segments, value).value) == SetLeaf(Plain(root), segments, Pruned(value))
  {
    hide Blocked, IsTable, SetLeaf, Storable, Pruned, Plain;
    if !value.Null? {
      ItemKeeps(value);
      if ToItem(value).Ok? {
        var item := ToItem(value).value;
        InsertFailsExactly(root, segments, item);
        if Insert(root, segments, item).Ok? {
          InsertSets(root, segments, item);
        }
      }
    }
  }

  /**
   A key is set exactly when it can be read, the file can be read, the place can
   take the value, every leaf of the edited file is accepted and the defaults
   with the file over them are valid. The document then differs by that
   assignment, or that removal.
   */
  lemma {:induction false} SetSucceedsIff(
      document: Document, source: Source, key: string, value: Value, defaults: Value, valid: Value -> bool)
    requires document.Loaded? ==> document.root.Tab?
    ensures SetOutcome(document, source, key, value, defaults, valid).Ok? <==>
            && Parsed(key).Ok? && Parsed(key).value != []
            && (document.NoFile? || document.Loaded?)
            && Editable(Root(document), Parsed(key).value, value)
            && var edited := Edited(Root(document), Parsed(key).value, value);
            && edited.Ok?
            && Accepted(defaults, Plain(edited.value), source)
            && valid(SetAll(defaults, LeafList(Plain(edited.value), [])))
    ensures SetOutcome(document, source, key, value, defaults, valid).Ok? ==>
              var root := SetOutcome(document, source, key, value, defaults, valid).value;
              if value.Null? then root == Remove(Root(document), Parsed(key).value)
              else Plain(root) == SetLeaf(Plain(Root(document)), Parsed(key).value, Pruned(value))
  {
    hide Edited, Editable, Accepted, SetAll, LeafList, LayerFailure, SetLeaf, Pruned;
    if Parsed(key).Ok? {
      var segments := Parsed(key).value;
      SegmentsAreQuoteFree(key);
      EditedIff(Root(document), segments, value);
      if value.Null? {
        RemovalIsEdited(Root(document), segments, value);
      }
      var edited := Edited(Root(document), segments, value);
      if edited.Ok? {
        LayerPassesIff(defaults, defaults, Plain(edited.value), source, valid);
      }
    }
  }

  lemma RemovalIsEdited(root: Item, segments: Path, value: Value)
    requires root.Tab? && segments != [] && value.Null?
    ensures Edited(root, segments, value) == Ok(Remove(root, segments))
  {}

  /** `set`, up to the text that is written when all checks pass. */
  method Set(document: Document, source: Source, key: string, value: Value, defaults: Value, valid: Value -> bool)
    returns (r: Result<Item, SetError>)
    requires SchemaShaped(defaults)
    requires document.Loaded? ==> document.root.Tab?
    ensures r == SetOutcome(document, source, key, value, defaults, valid)
  {
    hide LayerFailure, SetLeaf;
    var parsed := ReadKey(key);
    if parsed.Err? {
      return Err(Config(Malformed(parsed.error)));
    }
    var segments := parsed.value;
    SegmentsAreQuoteFree(key);
    if document.LockedFile? {
      return Err(Config(Unreadable));
    }
    if document.GarbledFile? {
      return Err(Config(Syntax));
    }
    var root := Root(document);
    if value.Null? {
      root := Remove(root, segments);
    } else {
      var item := ToItem(value);
      if item.Err? {
        return Err(Edit(item.error));
      }
      var inserted := Insert(root, segments, item.value);
      if inserted.Err? {
        return Err(Edit(inserted.error));
      }
      root := inserted.value;
    }
    var merged := new Merged(defaults, valid);
    var failure := merged.Apply(Plain(root), source);
    if failure.Some? {
      return Err(Config(failure.value));
    }
    return Ok(root);
  }

  // ------------------------------------------------------------ an edit, then a load

  function FileOf(document: Document): File
    requires document.NoFile? || document.Loaded?
  {
    if document.Loaded? then Table(Plain(document.root)) else Absent
  }

  /** A file that an edit wrote for the user loads, if nothing lies over it. */
  lemma {:induction false} EditedFileLoads(
      document: Document, key: string, value: Value, defaults: Value, valid: Value -> bool)
    requires document.Loaded? ==> document.root.Tab?
    requires SetOutcome(document, User, key, value, defaults, valid).Ok?
    ensures var file := Table(Plain(SetOutcome(document, User, key, value, defaults, valid).value));
            LoadOutcome(defaults, valid, file, Absent, map[]).Ok?
  {
    hide LayerFailure, EnvTree;
  }

  /**
   The load after an edit of the user's file: the key gives the value and the
   user, unless a higher layer sets it, and every key off its path gives what it
   gave before.
   */
  lemma {:induction false} SetThenLoad(
      document: Document, key: string, value: Value, defaults: Value, valid: Value -> bool, edited: Item,
      workspace: File, env: map<string, string>,
      was: Resolved, before: map<Path, ConfigLoad.Entry>, now: Resolved, after: map<Path, ConfigLoad.Entry>,
      other: string, q: Path)
    requires document.Loaded? ==> document.root.Tab?
    requires SetOutcome(document, User, key, value, defaults, valid) == Ok(edited)
    requires !value.Null? && !value.Obj? && (document.NoFile? || document.Loaded?)
    requires Shows(was.tree, was.sources, before)
    requires HasWinners(before, defaults, FileOf(document), workspace, env, |ENV_OVERRIDES|)
    requires Shows(now.tree, now.sources, after)
    requires HasWinners(after, defaults, Table(Plain(edited)), workspace, env, |ENV_OVERRIDES|)
    requires Spells(other, q)
    ensures Parsed(key).Ok?
    ensures var path := Parsed(key).value;
            && (EnvValue(env, |ENV_OVERRIDES|, path).None? && !Defines(workspace, path) ==>
                  Found(now, key) == Ok((value, Some(User))))
            && (Unrelated(path, q) ==>
                  && (Leaf(now.tree, q) <==> Leaf(was.tree, q))
                  && (Leaf(now.tree, q) ==> Found(now, other) == Found(was, other)))
  {
    SetSucceedsIff(document, User, key, value, defaults, valid);
    var path := Parsed(key).value;
    ReadsExactlyTheSpellings(key, path);
    hide SetOutcome, Found, HasWinners, Shows, Spells, EnvValue;
    SetWins(defaults, FileOf(document), Plain(Root(document)), Plain(edited), path, value, workspace, env, q) by {
      EmptyFile(document);
    }
    EveryKeyHasItsWinner(now, after, defaults, Table(Plain(edited)), workspace, env, key, path);
    EveryKeyHasItsWinner(now, after, defaults, Table(Plain(edited)), workspace, env, other, q);
    EveryKeyHasItsWinner(was, before, defaults, FileOf(document), workspace, env, other, q);
  }

  lemma EmptyFile(document: Document)
    requires document.NoFile? || document.Loaded?
    ensures forall p :: Defines(FileOf(document), p) <==> Leaf(Plain(Root(document)), p)
    ensures document.Loaded? ==> FileOf(document) == Table(Plain(Root(document)))
    ensures document.NoFile? ==> FileOf(document) == Absent
  {
    if document.NoFile? {
      assert Plain(Root(document)).fields == map[];
    }
  }

  lemma {:induction false} SetWins(
      defaults: Value, file: File, before: Value, after: Value, path: Path, value: Value,
      workspace: File, env: map<string, string>, q: Path)
    requires after == SetLeaf(before, path, value) && !value.Obj?
    requires file == Table(before) || (file == Absent && forall p :: !Leaf(before, p))
    ensures EnvValue(env, |ENV_OVERRIDES|, path).None? && !Defines(workspace, path) ==>
              Winner(defaults, Table(after), workspace, env, |ENV_OVERRIDES|, path) == Some(ConfigLoad.Entry(value, User))
    ensures Unrelated(path, q) ==>
              Winner(defaults, Table(after), workspace, env, |ENV_OVERRIDES|, q)
              == Winner(defaults, file, workspace, env, |ENV_OVERRIDES|, q)
  {
    hide EnvValue, SetLeaf, At;
    SetReadsBack(before, path, value);
    SetReads(before, path, value, q);
    assert Unrelated(path, q) ==> (Defines(Table(after), q) <==> Leaf(before, q));
    assert Defines(file, q) <==> Leaf(before, q);
  }
}

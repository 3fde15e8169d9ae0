/** The loader itself: merge state, layers in order, and the lookup of a key. */
module ConfigLoad {
  import opened Common
  import opened Order
  import opened Json
  import opened KeyPath
  import opened ConfigMerge

  datatype Assign = Assign(path: Path, value: Value)

  datatype Entry = Entry(value: Value, source: Source)

  // ------------------------------------------------------------ the leaves of a tree

  /** `out` lists exactly the leaves of `node`, each below `prefix`. */
  ghost predicate Lists(out: seq<Assign>, node: Value, prefix: Path) {
    && (forall a | a in out ::
          prefix <= a.path && Leaf(node, a.path[|prefix|..]) && At(node, a.path[|prefix|..]) == Some(a.value))
    && (forall p | Leaf(node, p) :: Assign(prefix + p, At(node, p).value) in out)
  }

  /** As `Lists`, for the members in `done` only. */
  ghost predicate ListsSome(out: seq<Assign>, node: Value, prefix: Path, done: set<string>) {
    && (forall a | a in out ::
          prefix <= a.path && Leaf(node, a.path[|prefix|..]) && At(node, a.path[|prefix|..]) == Some(a.value))
    && (forall p | Leaf(node, p) && p != [] && p[0] in done :: Assign(prefix + p, At(node, p).value) in out)
  }

  lemma {:induction false} MemberListed(
      out: seq<Assign>, more: seq<Assign>, node: Value, prefix: Path, done: set<string>, k: string)
    requires node.Obj? && k in node.fields
    requires ListsSome(out, node, prefix, done)
    requires Lists(more, node.fields[k], prefix + [k])
    ensures ListsSome(more + out, node, prefix, done + {k})
  {
    forall a | a in more
      ensures prefix <= a.path && Leaf(node, a.path[|prefix|..]) && At(node, a.path[|prefix|..]) == Some(a.value)
    {
      var tail := a.path[|prefix|..];
      assert a.path[|prefix| + 1..] == tail[1..] && tail[0] == k;
    }
    forall p | Leaf(node, p) && p != [] && p[0] in done + {k}
      ensures Assign(prefix + p, At(node, p).value) in more + out
    {
      if p[0] == k {
        assert Leaf(node.fields[k], p[1..]);
        assert prefix + [k] + p[1..] == prefix + p;
      }
    }
  }

  /** The leaves below `node`, members in the order of their keys. */
  function LeafList(node: Value, prefix: Path): seq<Assign>
    decreases node, 1, 0
  {
    if node.Obj? then MemberLeaves(node, prefix, node.fields.Keys) else [Assign(prefix, node)]
  }

  function MemberLeaves(node: Value, prefix: Path, left: set<string>): seq<Assign>
    requires node.Obj? && left <= node.fields.Keys
    decreases node, 0, |left|
  {
    if left == {} then []
    else
      var k := First(left);
      LeafList(node.fields[k], prefix + [k]) + MemberLeaves(node, prefix, left - {k})
  }

  /** The loop over members, and itself for each. */
  method Walk(node: Value, prefix: Path) returns (out: seq<Assign>)
    ensures out == LeafList(node, prefix)
    decreases node
  {
    if !node.Obj? {
      return [Assign(prefix, node)];
    }
    out := [];
    var left := node.fields.Keys;
    while left != {}
      invariant left <= node.fields.Keys
      invariant out + MemberLeaves(node, prefix, left) == LeafList(node, prefix)
      decreases left
    {
      var k := NextKey(left);
      var more := Walk(node.fields[k], prefix + [k]);
      assert out + (more + MemberLeaves(node, prefix, left - {k})) == out + more + MemberLeaves(node, prefix, left - {k});
      out := out + more;
      left := left - {k};
    }
  }

  /** The list holds exactly the leaves, each with its value. */
  lemma {:induction false} LeavesAreListed(node: Value, prefix: Path)
    ensures Lists(LeafList(node, prefix), node, prefix)
    decreases node, 1, 0
  {
    if node.Obj? {
      MembersAreListed(node, prefix, node.fields.Keys);
      AllListed(LeafList(node, prefix), node, prefix);
    } else {
      assert prefix + [] == prefix;
    }
  }

  lemma {:induction false} MembersAreListed(node: Value, prefix: Path, left: set<string>)
    requires node.Obj? && left <= node.fields.Keys
    ensures ListsSome(MemberLeaves(node, prefix, left), node, prefix, left)
    decreases node, 0, |left|
  {
    hide Lists, ListsSome;
    if left == {} {
      NoneListed(node, prefix);
    } else {
      var k := First(left);
      LeavesAreListed(node.fields[k], prefix + [k]);
      MembersAreListed(node, prefix, left - {k});
      MemberListed(MemberLeaves(node, prefix, left - {k}), LeafList(node.fields[k], prefix + [k]), node, prefix, left - {k}, k);
      assert left - {k} + {k} == left;
    }
  }

  lemma NoneListed(node: Value, prefix: Path)
    requires node.Obj?
    ensures ListsSome([], node, prefix, {})
  {}

  lemma AllListed(out: seq<Assign>, node: Value, prefix: Path)
    requires node.Obj? && ListsSome(out, node, prefix, node.fields.Keys)
    ensures Lists(out, node, prefix)
  {}

  /** `out` lists exactly the leaves of `tree`. */
  ghost predicate LeavesOf(out: seq<Assign>, tree: Value) {
    && (forall a | a in out :: Leaf(tree, a.path) && At(tree, a.path) == Some(a.value))
    && (forall p | Leaf(tree, p) :: Assign(p, At(tree, p).value) in out)
  }

  lemma {:induction false} LeavesOfTree(tree: Value)
    ensures LeavesOf(LeafList(tree, []), tree)
  {
    LeavesAreListed(tree, []);
    var out := LeafList(tree, []);
    forall a | a in out ensures Leaf(tree, a.path) && At(tree, a.path) == Some(a.value) {
      assert a.path[0..] == a.path;
    }
    forall p | Leaf(tree, p) ensures Assign(p, At(tree, p).value) in out {
      assert [] + p == p;
    }
  }

  // ------------------------------------------------------------ tree and side table agree

  ghost predicate TreeShows(tree: Value, contents: map<Path, Entry>) {
    && (forall p :: p in contents <==> Leaf(tree, p))
    && (forall p | p in contents :: At(tree, p) == Some(contents[p].value))
  }

  ghost predicate KeysNamed(sources: map<string, Source>, contents: map<Path, Entry>) {
    forall key | key in sources :: exists p | p in contents :: Formatted(p) == key
  }

  ghost predicate LeavesNamed(sources: map<string, Source>, contents: map<Path, Entry>) {
    forall p | p in contents :: Formatted(p) in sources && sources[Formatted(p)] == contents[p].source
  }

  /** The side table has the printed key of every leaf, with its layer, and no other key. */
  ghost predicate SourcesShow(sources: map<string, Source>, contents: map<Path, Entry>) {
    LeavesNamed(sources, contents) && KeysNamed(sources, contents)
  }

  ghost predicate Shows(tree: Value, sources: map<string, Source>, contents: map<Path, Entry>) {
    TreeShows(tree, contents) && SourcesShow(sources, contents)
  }

  ghost predicate AllAllowed(defaults: Value, contents: map<Path, Entry>) {
    forall p | p in contents :: Allowed(defaults, p)
  }

  lemma {:induction false} SetShowsTree(defaults: Value, tree: Value, contents: map<Path, Entry>, path: Path, e: Entry)
    requires SchemaShaped(defaults) && AllAllowed(defaults, contents) && Allowed(defaults, path) && !e.value.Obj?
    requires TreeShows(tree, contents)
    ensures TreeShows(SetLeaf(tree, path, e.value), contents[path := e])
  {
    var tree', contents' := SetLeaf(tree, path, e.value), contents[path := e];
    forall q
      ensures q in contents' <==> Leaf(tree', q)
      ensures q in contents' ==> At(tree', q) == Some(contents'[q].value)
    {
      Apart(defaults, contents, path, q);
      SetAddsOneLeaf(tree, path, e.value, q);
    }
  }

  lemma {:induction false} KeyNamed(sources: map<string, Source>, contents: map<Path, Entry>, path: Path, e: Entry)
    requires KeysNamed(sources, contents)
    ensures KeysNamed(sources[Formatted(path) := e.source], contents[path := e])
  {
    var sources', contents' := sources[Formatted(path) := e.source], contents[path := e];
    forall key | key in sources' ensures exists p | p in contents' :: Formatted(p) == key {
      if key == Formatted(path) {
        assert path in contents';
      } else {
        var p :| p in contents && Formatted(p) == key;
        assert p in contents';
      }
    }
  }

  lemma {:induction false} LeafNamed(
      defaults: Value, sources: map<string, Source>, contents: map<Path, Entry>, path: Path, e: Entry)
    requires SchemaShaped(defaults) && AllAllowed(defaults, contents) && Allowed(defaults, path)
    requires LeavesNamed(sources, contents)
    ensures LeavesNamed(sources[Formatted(path) := e.source], contents[path := e])
  {
    var sources', contents' := sources[Formatted(path) := e.source], contents[path := e];
    forall q | q in contents'
      ensures Formatted(q) in sources' && sources'[Formatted(q)] == contents'[q].source
    {
      if q != path && Formatted(q) == Formatted(path) {
        NoCollision(defaults, q, path);
      }
    }
  }

  ghost predicate AllDefault(contents: map<Path, Entry>) {
    forall p | p in contents :: contents[p].source == Default
  }

  /** One more default: whatever prints alike has the same layer. */
  lemma {:induction false} DefaultNamed(sources: map<string, Source>, contents: map<Path, Entry>, path: Path, e: Entry)
    requires e.source == Default && AllDefault(contents)
    requires SourcesShow(sources, contents)
    ensures SourcesShow(sources[Formatted(path) := Default], contents[path := e])
    ensures AllDefault(contents[path := e])
  {
    KeyNamed(sources, contents, path, e);
  }

  lemma {:induction false} Apart(defaults: Value, contents: map<Path, Entry>, path: Path, q: Path)
    requires SchemaShaped(defaults) && AllAllowed(defaults, contents) && Allowed(defaults, path)
    ensures q in contents && q != path ==> Unrelated(path, q)
  {
    if q in contents {
      if path <= q {
        AllowedAreUnrelated(defaults, path, q);
      } else if q <= path {
        AllowedAreUnrelated(defaults, q, path);
      }
    }
  }

  // ------------------------------------------------------------ one layer over the others

  function LeafRefusal(defaults: Value, path: Path, value: Value, source: Source): Option<ConfigError> {
    if Refusal(defaults, path, value).Some? then Refusal(defaults, path, value)
    else if source == Workspace && !WorkspaceOverridable(Formatted(path)) then Some(KeyNotOverridable)
    else None
  }

  ghost predicate Accepted(defaults: Value, layer: Value, source: Source) {
    forall p | Leaf(layer, p) :: LeafRefusal(defaults, p, At(layer, p).value, source).None?
  }

  /** `after` is `before` with every leaf of `layer` laid over it. */
  ghost predicate Overlaid(before: map<Path, Entry>, after: map<Path, Entry>, layer: Value, source: Source) {
    && (forall p :: p in after <==> p in before || Leaf(layer, p))
    && (forall p | p in after ::
          after[p] == if Leaf(layer, p) then Entry(At(layer, p).value, source) else before[p])
  }

  /** As `Overlaid`, for the first `n` leaves of a list. */
  ghost predicate OverlaidBy(
      before: map<Path, Entry>, after: map<Path, Entry>, leaves: seq<Assign>, n: nat, layer: Value, source: Source)
    requires n <= |leaves|
  {
    && (forall p | p in before :: p in after)
    && (forall i | 0 <= i < n :: leaves[i].path in after)
    && (forall p | p in after ::
          || (Leaf(layer, p) && after[p] == Entry(At(layer, p).value, source))
          || (p in before && after[p] == before[p] && forall i | 0 <= i < n :: leaves[i].path != p))
  }

  lemma {:induction false} LeafLaid(
      before: map<Path, Entry>, after: map<Path, Entry>, leaves: seq<Assign>, i: nat, layer: Value, source: Source)
    requires i < |leaves| && LeavesOf(leaves, layer)
    requires OverlaidBy(before, after, leaves, i, layer, source)
    ensures OverlaidBy(before, after[leaves[i].path := Entry(leaves[i].value, source)], leaves, i + 1, layer, source)
  {
    assert leaves[i] in leaves;
  }

  lemma {:induction false} AllLaid(
      before: map<Path, Entry>, after: map<Path, Entry>, leaves: seq<Assign>, layer: Value, source: Source)
    requires LeavesOf(leaves, layer)
    requires OverlaidBy(before, after, leaves, |leaves|, layer, source)
    ensures Overlaid(before, after, layer, source)
  {
    forall p | Leaf(layer, p) ensures exists i | 0 <= i < |leaves| :: leaves[i].path == p {
      var a := Assign(p, At(layer, p).value);
      assert a in leaves;
      var i :| 0 <= i < |leaves| && leaves[i] == a;
    }
  }

  class Merged {
    const valid: Value -> bool
    const defaults: Value
    var tree: Value
    var sources: map<string, Source>
    ghost var contents: map<Path, Entry>

    ghost predicate Valid()
      reads this
    {
      SchemaShaped(defaults) && Shows(tree, sources, contents) && AllAllowed(defaults, contents)
    }

    /** The built-in defaults, every leaf attributed to them. */
    constructor (defaults: Value, valid: Value -> bool)
      requires SchemaShaped(defaults)
      ensures this.defaults == defaults && this.valid == valid && tree == defaults
      ensures Valid() && Overlaid(map[], contents, defaults, Default)
    {
      var leaves := Walk(defaults, []);
      LeavesOfTree(defaults);
      var table: map<string, Source> := map[];
      ghost var entries: map<Path, Entry> := map[];
      for i := 0 to |leaves|
        invariant OverlaidBy(map[], entries, leaves, i, defaults, Default)
        invariant SourcesShow(table, entries)
        invariant AllDefault(entries)
      {
        LeafLaid(map[], entries, leaves, i, defaults, Default);
        DefaultNamed(table, entries, leaves[i].path, Entry(leaves[i].value, Default));
        var key := FormatKey(leaves[i].path);
        table := table[key := Default];
        entries := entries[leaves[i].path := Entry(leaves[i].value, Default)];
      }
      AllLaid(map[], entries, leaves, defaults, Default);
      DefaultsAllowed(defaults, entries);
      this.defaults, this.valid, tree, sources, contents := defaults, valid, defaults, table, entries;
    }

    /** `set_leaf`. */
    method Set(segments: Path, value: Value, source: Source)
      requires Valid() && Allowed(defaults, segments) && !value.Obj?
      modifies this
      ensures Valid() && contents == old(contents)[segments := Entry(value, source)]
      ensures tree == SetLeaf(old(tree), segments, value)
    {
      SetShowsTree(defaults, tree, contents, segments, Entry(value, source));
      LeafNamed(defaults, sources, contents, segments, Entry(value, source));
      KeyNamed(sources, contents, segments, Entry(value, source));
      tree := SetLeaf(tree, segments, value);
      var key := FormatKey(segments);
      sources := sources[key := source];
      contents := contents[segments := Entry(value, source)];
    }

    /** One leaf of a layer: checked, then set. */
    method Add(a: Assign, source: Source) returns (failure: Option<ConfigError>)
      requires Valid() && !a.value.Obj?
      modifies this
      ensures Valid()
      ensures failure == LeafRefusal(defaults, a.path, a.value, source)
      ensures contents == if failure.None? then old(contents)[a.path := Entry(a.value, source)] else old(contents)
      ensures tree == if failure.None? then SetLeaf(old(tree), a.path, a.value) else old(tree)
    {
      hide SchemaShaped, TreeShows, SourcesShow, AllAllowed;
      failure := CheckKnown(defaults, a.path, a.value);
      if failure.Some? {
        return;
      }
      if source == Workspace && !WorkspaceOverridable(Formatted(a.path)) {
        return Some(KeyNotOverridable);
      }
      Set(a.path, a.value, source);
    }

    /** Sets the leaves of a layer one by one, up to the first that is refused. */
    method Overlay(layer: Value, source: Source) returns (failure: Option<ConfigError>)
      requires Valid()
      modifies this
      ensures Valid()
      ensures failure == FirstRefusal(defaults, LeafList(layer, []), source)
      ensures failure.None? ==>
                Overlaid(old(contents), contents, layer, source) && tree == SetAll(old(tree), LeafList(layer, []))
    {
      hide SchemaShaped, TreeShows, SourcesShow, AllAllowed, LeafRefusal, LeavesOf, Overlaid, OverlaidBy;
      var leaves := Walk(layer, []);
      LeavesOfTree(layer);
      NothingLaid(contents, leaves, layer, source);
      for i := 0 to |leaves|
        invariant Valid() && OverlaidBy(old(contents), contents, leaves, i, layer, source)
        invariant FirstRefusal(defaults, leaves[i..], source) == FirstRefusal(defaults, leaves, source)
        invariant SetAll(tree, leaves[i..]) == SetAll(old(tree), leaves)
      {
        LeafListed(leaves, i, layer);
        LeafLaid(old(contents), contents, leaves, i, layer, source);
        assert leaves[i..][1..] == leaves[i + 1..];
        failure := Add(leaves[i], source);
        if failure.Some? {
          return;
        }
      }
      AllLaid(old(contents), contents, leaves, layer, source);
      failure := None;
    }

    /** `apply_text`, after parsing: a refused leaf or an invalid result ends the load. */
    method Apply(layer: Value, source: Source) returns (failure: Option<ConfigError>)
      requires Valid()
      modifies this
      ensures Valid()
      ensures failure == LayerFailure(defaults, old(tree), layer, source, valid)
      ensures failure.None? ==>
                Overlaid(old(contents), contents, layer, source) && tree == SetAll(old(tree), LeafList(layer, []))
    {
      failure := Overlay(layer, source);
      if failure.None? && !valid(tree) {
        failure := Some(Invalid);
      }
    }
  }

  /** The tree with all these leaves set, one after the other. */
  function SetAll(tree: Value, leaves: seq<Assign>): Value
    decreases |leaves|
  {
    if leaves == [] then tree else SetAll(SetLeaf(tree, leaves[0].path, leaves[0].value), leaves[1..])
  }

  /** Why the first leaf that is refused is refused. */
  function FirstRefusal(defaults: Value, leaves: seq<Assign>, source: Source): Option<ConfigError>
    decreases |leaves|
  {
    if leaves == [] then None
    else
      var refusal := LeafRefusal(defaults, leaves[0].path, leaves[0].value, source);
      if refusal.Some? then refusal else FirstRefusal(defaults, leaves[1..], source)
  }

  /** Why a layer over a tree ends the load, if it does. */
  function LayerFailure(
      defaults: Value, tree: Value, layer: Value, source: Source, valid: Value -> bool): Option<ConfigError>
  {
    var refusal := FirstRefusal(defaults, LeafList(layer, []), source);
    if refusal.Some? then refusal else if valid(SetAll(tree, LeafList(layer, []))) then None else Some(Invalid)
  }

  lemma {:induction false} NoRefusalIff(defaults: Value, leaves: seq<Assign>, source: Source)
    ensures FirstRefusal(defaults, leaves, source).None? <==>
            forall a | a in leaves :: LeafRefusal(defaults, a.path, a.value, source).None?
    decreases |leaves|
  {
    hide LeafRefusal;
    if leaves != [] {
      NoRefusalIff(defaults, leaves[1..], source);
      assert forall a :: a in leaves <==> a == leaves[0] || a in leaves[1..];
    }
  }

  lemma {:induction false} AcceptedIff(defaults: Value, layer: Value, leaves: seq<Assign>, source: Source)
    requires LeavesOf(leaves, layer)
    ensures Accepted(defaults, layer, source) <==> FirstRefusal(defaults, leaves, source).None?
  {
    NoRefusalIff(defaults, leaves, source);
    hide LeafRefusal, Leaf, At, FirstRefusal;
    if Accepted(defaults, layer, source) {
      forall a | a in leaves ensures LeafRefusal(defaults, a.path, a.value, source).None? {
        assert Leaf(layer, a.path);
      }
    } else {
      var p :| Leaf(layer, p) && LeafRefusal(defaults, p, At(layer, p).value, source).Some?;
      assert Assign(p, At(layer, p).value) in leaves;
    }
  }

  /** A layer passes exactly when every leaf is accepted and the tree it makes is valid. */
  lemma {:induction false} LayerPassesIff(
      defaults: Value, tree: Value, layer: Value, source: Source, valid: Value -> bool)
    ensures LayerFailure(defaults, tree, layer, source, valid).None? <==>
            Accepted(defaults, layer, source) && valid(SetAll(tree, LeafList(layer, [])))
  {
    hide LeafList, FirstRefusal, Accepted;
    LeavesOfTree(layer);
    AcceptedIff(defaults, layer, LeafList(layer, []), source);
  }

  lemma NothingLaid(contents: map<Path, Entry>, leaves: seq<Assign>, layer: Value, source: Source)
    ensures OverlaidBy(contents, contents, leaves, 0, layer, source)
  {}

  lemma LeafListed(leaves: seq<Assign>, i: nat, layer: Value)
    requires LeavesOf(leaves, layer) && i < |leaves|
    ensures Leaf(layer, leaves[i].path) && At(layer, leaves[i].path) == Some(leaves[i].value)
  {
    assert leaves[i] in leaves;
  }

  lemma {:induction false} DefaultsAllowed(defaults: Value, entries: map<Path, Entry>)
    requires SchemaShaped(defaults) && Overlaid(map[], entries, defaults, Default)
    ensures AllAllowed(defaults, entries)
  {
    forall p | p in entries ensures Allowed(defaults, p) {
      assert Leaf(defaults, p);
      KnownIsNotNew(defaults, p);
    }
  }

  // ------------------------------------------------------------ which layer wins

  /** A layer's file: missing, not readable, not TOML, or the table it holds. */
  datatype File = Absent | Locked | Garbled | Table(table: Value)

  /** `(variable, key)`. */
  const ENV_OVERRIDES: seq<(string, string)> := [
    ("HARNESS_MENTOR_MODEL", "mentor.model"),
    ("HARNESS_MENTOR_EFFORT", "mentor.effort"),
    ("HARNESS_MENTOR_BASE_URL", "mentor.base_url"),
    ("HARNESS_LOG_LEVEL", "daemon.log_level")
  ]

  const ENV_PATHS: seq<Path> := [["mentor", "model"], ["mentor", "effort"], ["mentor", "base_url"], ["daemon", "log_level"]]

  predicate Defines(file: File, path: Path) {
    file.Table? && Leaf(file.table, path)
  }

  /** What the first `n` override variables say about a path. */
  function EnvValue(env: map<string, string>, n: nat, path: Path): Option<string>
    requires n <= |ENV_OVERRIDES|
  {
    if n == 0 then None
    else if ENV_PATHS[n - 1] == path && ENV_OVERRIDES[n - 1].0 in env then Some(env[ENV_OVERRIDES[n - 1].0])
    else EnvValue(env, n - 1, path)
  }

  /** The value and the layer a path ends up with, highest layer first. */
  function Winner(defaults: Value, user: File, workspace: File, env: map<string, string>, n: nat, path: Path): Option<Entry>
    requires n <= |ENV_OVERRIDES|
  {
    if EnvValue(env, n, path).Some? then Some(Entry(Str(EnvValue(env, n, path).value), Env))
    else if Defines(workspace, path) then Some(Entry(At(workspace.table, path).value, Workspace))
    else if Defines(user, path) then Some(Entry(At(user.table, path).value, User))
    else if Leaf(defaults, path) then Some(Entry(At(defaults, path).value, Default))
    else None
  }

  ghost predicate HasWinners(
      contents: map<Path, Entry>, defaults: Value, user: File, workspace: File, env: map<string, string>, n: nat)
    requires n <= |ENV_OVERRIDES|
  {
    forall p :: (p in contents <==> Winner(defaults, user, workspace, env, n, p).Some?)
             && (p in contents ==> Some(contents[p]) == Winner(defaults, user, workspace, env, n, p))
  }

  lemma {:induction false} BareKeyParses(section: string, field: string)
    requires !NeedsQuotes(section) && !NeedsQuotes(field)
    ensures Parsed(section + ("." + field)) == Ok([section, field])
  {
    PrintsTwo(section, field);
    PlainHasNoDot(section);
    PlainHasNoDot(field);
    RoundTripIff([section, field]);
  }

  lemma {:induction false} EnvKeyParses(i: nat)
    requires i < |ENV_OVERRIDES|
    ensures Parsed(ENV_OVERRIDES[i].1) == Ok(ENV_PATHS[i])
  {
    PlainFields();
    PlainEnvFields();
    BareKeyParses(ENV_PATHS[i][0], ENV_PATHS[i][1]);
    EnvKeyPrints(i);
  }

  lemma EnvKeyPrints(i: nat)
    requires i < |ENV_OVERRIDES|
    ensures ENV_OVERRIDES[i].1 == ENV_PATHS[i][0] + ("." + ENV_PATHS[i][1])
    ensures ENV_PATHS[i] == [ENV_PATHS[i][0], ENV_PATHS[i][1]]
  {}

  lemma PlainEnvFields()
    ensures !NeedsQuotes("base_url") && !NeedsQuotes("daemon") && !NeedsQuotes("log_level")
  {}

  ghost predicate FileAccepted(defaults: Value, file: File, source: Source) {
    file.Absent? || (file.Table? && Accepted(defaults, file.table, source))
  }

  datatype Resolved = Resolved(tree: Value, sources: map<string, Source>)

  /** `contents` after a layer that may have no file. */
  ghost predicate FileLaid(before: map<Path, Entry>, after: map<Path, Entry>, file: File, source: Source) {
    if file.Table? then Overlaid(before, after, file.table, source) else after == before
  }

  /** Why a layer's file ends the load, if it does. */
  function FileFailure(
      defaults: Value, tree: Value, file: File, source: Source, valid: Value -> bool): Option<ConfigError>
  {
    match file
    case Absent => None
    case Locked => Some(Unreadable)
    case Garbled => Some(Syntax)
    case Table(table) => LayerFailure(defaults, tree, table, source, valid)
  }

  /** The tree after a layer's file. */
  function FileTree(tree: Value, file: File): Value {
    if file.Table? then SetAll(tree, LeafList(file.table, [])) else tree
  }

  method ApplyFile(merged: Merged, file: File, source: Source) returns (failure: Option<ConfigError>)
    requires merged.Valid()
    modifies merged
    ensures merged.Valid()
    ensures failure == FileFailure(merged.defaults, old(merged.tree), file, source, merged.valid)
    ensures failure.None? ==>
              merged.tree == FileTree(old(merged.tree), file)
              && FileLaid(old(merged.contents), merged.contents, file, source)
  {
    match file
    case Absent => return None;
    case Locked => return Some(Unreadable);
    case Garbled => return Some(Syntax);
    case Table(table) => failure := merged.Apply(table, source);
  }

  lemma {:induction false} LayersHaveWinners(
      defaults: Value, user: File, workspace: File, env: map<string, string>,
      a: map<Path, Entry>, b: map<Path, Entry>, c: map<Path, Entry>)
    requires Overlaid(map[], a, defaults, Default)
    requires FileLaid(a, b, user, User)
    requires FileLaid(b, c, workspace, Workspace)
    ensures HasWinners(c, defaults, user, workspace, env, 0)
  {
    forall p
      ensures p in c <==> Winner(defaults, user, workspace, env, 0, p).Some?
      ensures p in c ==> Some(c[p]) == Winner(defaults, user, workspace, env, 0, p)
    {
      assert p in a <==> Leaf(defaults, p);
      assert p in b <==> p in a || Defines(user, p);
      assert p in c <==> p in b || Defines(workspace, p);
    }
  }

  lemma {:induction false} OverrideWins(
      contents: map<Path, Entry>, defaults: Value, user: File, workspace: File, env: map<string, string>, i: nat)
    requires i < |ENV_OVERRIDES| && HasWinners(contents, defaults, user, workspace, env, i)
    ensures var variable := ENV_OVERRIDES[i].0;
            HasWinners(
              if variable in env then contents[ENV_PATHS[i] := Entry(Str(env[variable]), Env)] else contents,
              defaults, user, workspace, env, i + 1)
  {}

  /** The tree after the first `n` override variables. */
  function EnvTree(tree: Value, env: map<string, string>, n: nat): Value
    requires n <= |ENV_OVERRIDES|
  {
    if n == 0 then tree
    else
      var before, variable := EnvTree(tree, env, n - 1), ENV_OVERRIDES[n - 1].0;
      if variable in env then SetLeaf(before, ENV_PATHS[n - 1], Str(env[variable])) else before
  }

  /** Each variable that is set leaves a valid tree. */
  predicate EnvValid(tree: Value, env: map<string, string>, n: nat, valid: Value -> bool)
    requires n <= |ENV_OVERRIDES|
  {
    forall i | 0 <= i < n && ENV_OVERRIDES[i].0 in env :: valid(EnvTree(tree, env, i + 1))
  }

  lemma EnvStarts(tree: Value, env: map<string, string>, valid: Value -> bool)
    ensures EnvTree(tree, env, 0) == tree && EnvValid(tree, env, 0, valid)
  {}

  lemma EnvStep(tree: Value, env: map<string, string>, i: nat, valid: Value -> bool)
    requires i < |ENV_OVERRIDES|
    ensures var variable := ENV_OVERRIDES[i].0;
            && EnvTree(tree, env, i + 1) ==
               (if variable in env then SetLeaf(EnvTree(tree, env, i), ENV_PATHS[i], Str(env[variable])) else EnvTree(tree, env, i))
            && (EnvValid(tree, env, i + 1, valid) <==>
                EnvValid(tree, env, i, valid) && (variable in env ==> valid(EnvTree(tree, env, i + 1))))
  {}

  lemma {:induction false} InvalidStays(tree: Value, env: map<string, string>, i: nat, valid: Value -> bool)
    requires i <= |ENV_OVERRIDES| && !EnvValid(tree, env, i, valid)
    ensures !EnvValid(tree, env, |ENV_OVERRIDES|, valid)
  {}

  /** One variable: its key is read, the leaf set without any test but that of the whole tree. */
  method ApplyVariable(merged: Merged, i: nat, env: map<string, string>) returns (ok: bool)
    requires merged.Valid() && i < |ENV_OVERRIDES| && ENV_OVERRIDES[i].0 in env && Leaf(merged.defaults, ENV_PATHS[i])
    modifies merged
    ensures merged.Valid() && ok == merged.valid(merged.tree)
    ensures var value := Str(env[ENV_OVERRIDES[i].0]);
            && merged.tree == SetLeaf(old(merged.tree), ENV_PATHS[i], value)
            && merged.contents == old(merged.contents)[ENV_PATHS[i] := Entry(value, Env)]
  {
    hide SetLeaf, SchemaShaped, Shows, AllAllowed;
    EnvKeyParses(i);
    var segments := ReadKey(ENV_OVERRIDES[i].1);
    KnownIsNotNew(merged.defaults, ENV_PATHS[i]);
    merged.Set(segments.value, Str(env[ENV_OVERRIDES[i].0]), Env);
    ok := merged.valid(merged.tree);
  }

  method ApplyEnv(merged: Merged, ghost user: File, ghost workspace: File, env: map<string, string>) returns (ok: bool)
    requires merged.Valid()
    requires forall i | 0 <= i < |ENV_PATHS| :: Leaf(merged.defaults, ENV_PATHS[i])
    requires HasWinners(merged.contents, merged.defaults, user, workspace, env, 0)
    modifies merged
    ensures merged.Valid()
    ensures ok <==> EnvValid(old(merged.tree), env, |ENV_OVERRIDES|, merged.valid)
    ensures ok ==>
              merged.tree == EnvTree(old(merged.tree), env, |ENV_OVERRIDES|)
              && HasWinners(merged.contents, merged.defaults, user, workspace, env, |ENV_OVERRIDES|)
  {
    hide HasWinners, EnvTree, EnvValid, SetLeaf, SchemaShaped, Shows, AllAllowed, Leaf;
    ghost var start := merged.tree;
    EnvStarts(start, env, merged.valid);
    for i := 0 to |ENV_OVERRIDES|
      invariant merged.Valid() && merged.tree == EnvTree(start, env, i) && EnvValid(start, env, i, merged.valid)
      invariant HasWinners(merged.contents, merged.defaults, user, workspace, env, i)
    {
      OverrideWins(merged.contents, merged.defaults, user, workspace, env, i);
      EnvStep(start, env, i, merged.valid);
      if ENV_OVERRIDES[i].0 in env {
        var fine := ApplyVariable(merged, i, env);
        if !fine {
          InvalidStays(start, env, i + 1, merged.valid);
          return false;
        }
      }
    }
    return true;
  }

  /** What a load comes to: the tree, or the first failure. */
  function LoadOutcome(defaults: Value, valid: Value -> bool, user: File, workspace: File, env: map<string, string>)
    : Result<Value, ConfigError>
  {
    var failure := FileFailure(defaults, defaults, user, User, valid);
    if failure.Some? then Err(failure.value)
    else
      var first := FileTree(defaults, user);
      var next := FileFailure(defaults, first, workspace, Workspace, valid);
      if next.Some? then Err(next.value)
      else
        var second := FileTree(first, workspace);
        if EnvValid(second, env, |ENV_OVERRIDES|, valid) then Ok(EnvTree(second, env, |ENV_OVERRIDES|)) else Err(Invalid)
  }

  predicate ValidAfter(tree: Value, file: File, valid: Value -> bool) {
    file.Table? ==> valid(FileTree(tree, file))
  }

  lemma FilePassesIff(defaults: Value, tree: Value, file: File, source: Source, valid: Value -> bool)
    ensures FileFailure(defaults, tree, file, source, valid).None? <==>
            FileAccepted(defaults, file, source) && ValidAfter(tree, file, valid)
  {
    if file.Table? {
      LayerPassesIff(defaults, tree, file.table, source, valid);
    }
  }

  /** A load succeeds exactly when every leaf of both files is accepted and every tree on the way is valid. */
  lemma {:induction false} LoadSucceedsIff(
      defaults: Value, valid: Value -> bool, user: File, workspace: File, env: map<string, string>)
    ensures var first := FileTree(defaults, user);
            var second := FileTree(first, workspace);
            LoadOutcome(defaults, valid, user, workspace, env).Ok? <==>
            && FileAccepted(defaults, user, User) && FileAccepted(defaults, workspace, Workspace)
            && ValidAfter(defaults, user, valid) && ValidAfter(first, workspace, valid)
            && EnvValid(second, env, |ENV_OVERRIDES|, valid)
  {
    hide FileFailure, FileAccepted, EnvValid, ValidAfter;
    FilePassesIff(defaults, defaults, user, User, valid);
    FilePassesIff(defaults, FileTree(defaults, user), workspace, Workspace, valid);
  }

  /** `load`: the layers in order; the first failure ends it. */
  method Load(defaults: Value, valid: Value -> bool, user: File, workspace: File, env: map<string, string>)
    returns (r: Result<Resolved, ConfigError>, ghost contents: map<Path, Entry>)
    requires SchemaShaped(defaults)
    requires forall i | 0 <= i < |ENV_PATHS| :: Leaf(defaults, ENV_PATHS[i])
    ensures var outcome := LoadOutcome(defaults, valid, user, workspace, env);
            if outcome.Ok? then r.Ok? && r.value.tree == outcome.value else r == Err(outcome.error)
    ensures r.Ok? ==>
              && Shows(r.value.tree, r.value.sources, contents)
              && HasWinners(contents, defaults, user, workspace, env, |ENV_OVERRIDES|)
  {
    hide FileFailure, FileTree, EnvValid, EnvTree, HasWinners, FileLaid;
    var merged := new Merged(defaults, valid);
    ghost var a := merged.contents;
    var failure := ApplyFile(merged, user, User);
    if failure.Some? {
      return Err(failure.value), map[];
    }
    ghost var b := merged.contents;
    failure := ApplyFile(merged, workspace, Workspace);
    if failure.Some? {
      return Err(failure.value), map[];
    }
    LayersHaveWinners(defaults, user, workspace, env, a, b, merged.contents);
    var ok := ApplyEnv(merged, user, workspace, env);
    if !ok {
      return Err(Invalid), map[];
    }
    return Ok(Resolved(merged.tree, merged.sources)), merged.contents;
  }

  // ------------------------------------------------------------ what a layer may set

  /** Two values of the same JSON type. */
  predicate SameType(a: Value, b: Value) {
    || (a.Null? && b.Null?) || (a.Bool? && b.Bool?) || (a.Num? && b.Num?) || (a.Str? && b.Str?)
    || (a.Arr? && b.Arr?) || (a.Obj? && b.Obj?)
  }

  /** A default of the leaf's own path. */
  predicate HasDefault(defaults: Value, path: Path) {
    At(defaults, path).Some?
  }

  /** A field of a price for a model that has none: one that the template has. */
  predicate PricesNewModel(defaults: Value, path: Path) {
    && |path| == 3 && path[0] == "pricing"
    && At(defaults, ["pricing"]).Some? && At(defaults, ["pricing", path[1]]).None?
    && At(defaults, ["pricing", "claude-opus-5", path[2]]).Some?
  }

  /** The value that the leaf's must be like. */
  predicate WellTyped(defaults: Value, path: Path, value: Value) {
    || (HasDefault(defaults, path) && SameType(At(defaults, path).value, value))
    || (PricesNewModel(defaults, path) && SameType(At(defaults, ["pricing", "claude-opus-5", path[2]]).value, value))
  }

  lemma PriceFacts(defaults: Value, path: Path)
    ensures PricesNewModel(defaults, path) ==> !HasDefault(defaults, path)
    ensures NewPrice(defaults, path) && At(defaults, TEMPLATE + path[2..]).Some? <==> PricesNewModel(defaults, path)
    ensures NewPrice(defaults, path) ==> !HasDefault(defaults, path)
    ensures |path| == 3 ==> TEMPLATE + path[2..] == ["pricing", "claude-opus-5", path[2]]
  {
    if |path| == 3 {
      assert path[..2] == [path[0], path[1]] && path[..1] == [path[0]];
      assert TEMPLATE + path[2..] == ["pricing", "claude-opus-5", path[2]];
      if At(defaults, path).Some? {
        AtPrefix(defaults, path[..2], path);
      }
    }
  }

  /** Which leaves are refused, and why. */
  lemma {:induction false} RefusedExactlyWhen(defaults: Value, path: Path, value: Value, source: Source)
    requires path != []
    ensures LeafRefusal(defaults, path, value, source) == Some(UnknownKey) <==>
            !HasDefault(defaults, path) && !PricesNewModel(defaults, path)
    ensures LeafRefusal(defaults, path, value, source) == Some(WrongType) <==>
            (HasDefault(defaults, path) || PricesNewModel(defaults, path)) && !WellTyped(defaults, path, value)
    ensures LeafRefusal(defaults, path, value, source) == Some(KeyNotOverridable) <==>
            WellTyped(defaults, path, value) && source == Workspace && !MayOverride(path)
    ensures LeafRefusal(defaults, path, value, source) == None <==>
            WellTyped(defaults, path, value) && (source == Workspace ==> MayOverride(path))
  {
    PriceFacts(defaults, path);
    OverridableByPath(path);
    hide WorkspaceOverridable, MayOverride, Formatted, NewPrice, PricesNewModel, At;
  }

  /** A layer is accepted exactly when each of its leaves may be set. */
  lemma {:induction false} AcceptedExactlyWhen(defaults: Value, layer: Value, source: Source)
    requires layer.Obj?
    ensures Accepted(defaults, layer, source) <==>
            forall p | Leaf(layer, p) ::
              WellTyped(defaults, p, At(layer, p).value) && (source == Workspace ==> MayOverride(p))
  {
    forall p | Leaf(layer, p)
      ensures LeafRefusal(defaults, p, At(layer, p).value, source).None? <==>
              WellTyped(defaults, p, At(layer, p).value) && (source == Workspace ==> MayOverride(p))
    {
      assert p != [];
      RefusedExactlyWhen(defaults, p, At(layer, p).value, source);
    }
  }

  /**
   A load that succeeds took nothing from the workspace's file but what a
   workspace may override, and from either file only values of the right type
   for keys that exist.
   */
  lemma {:induction false} LoadedLayersAreAllowed(
      defaults: Value, valid: Value -> bool, user: File, workspace: File, env: map<string, string>, p: Path)
    requires LoadOutcome(defaults, valid, user, workspace, env).Ok?
    requires (user.Table? ==> user.table.Obj?) && (workspace.Table? ==> workspace.table.Obj?)
    ensures (user.Absent? || user.Table?) && (workspace.Absent? || workspace.Table?)
    ensures workspace.Table? && Leaf(workspace.table, p) ==>
              MayOverride(p) && WellTyped(defaults, p, At(workspace.table, p).value)
    ensures user.Table? && Leaf(user.table, p) ==> WellTyped(defaults, p, At(user.table, p).value)
  {
    LoadSucceedsIff(defaults, valid, user, workspace, env);
    if workspace.Table? {
      AcceptedExactlyWhen(defaults, workspace.table, Workspace);
    }
    if user.Table? {
      AcceptedExactlyWhen(defaults, user.table, User);
    }
  }

  /** A workspace's file that sets another key, `mentor.base_url` for one, ends the load; with that error if its leaves are well-typed. */
  lemma {:induction false} ForbiddenKeyEndsTheLoad(
      defaults: Value, valid: Value -> bool, user: File, workspace: File, env: map<string, string>, p: Path)
    requires workspace.Table? && workspace.table.Obj? && Leaf(workspace.table, p) && !MayOverride(p)
    ensures LoadOutcome(defaults, valid, user, workspace, env).Err?
    ensures (forall q | Leaf(workspace.table, q) :: WellTyped(defaults, q, At(workspace.table, q).value))
            && FileFailure(defaults, defaults, user, User, valid).None? ==>
              LoadOutcome(defaults, valid, user, workspace, env) == Err(KeyNotOverridable)
    ensures !MayOverride(["mentor", "base_url"])
  {
    var layer, leaves := workspace.table, LeafList(workspace.table, []);
    assert p != [];
    RefusedExactlyWhen(defaults, p, At(layer, p).value, Workspace);
    LeavesOfTree(layer);
    var a := Assign(p, At(layer, p).value);
    assert a in leaves;
    NoRefusalIff(defaults, leaves, Workspace);
    assert FirstRefusal(defaults, leaves, Workspace).Some?;
    if forall q | Leaf(layer, q) :: WellTyped(defaults, q, At(layer, q).value) {
      forall b | b in leaves ensures LeafRefusal(defaults, b.path, b.value, Workspace) in {None, Some(KeyNotOverridable)} {
        assert Leaf(layer, b.path) && b.path != [];
        RefusedExactlyWhen(defaults, b.path, b.value, Workspace);
      }
      OneKindOfRefusal(defaults, leaves, Workspace);
    }
  }

  lemma {:induction false} OneKindOfRefusal(defaults: Value, leaves: seq<Assign>, source: Source)
    requires forall a | a in leaves :: LeafRefusal(defaults, a.path, a.value, source) in {None, Some(KeyNotOverridable)}
    ensures FirstRefusal(defaults, leaves, source) in {None, Some(KeyNotOverridable)}
    decreases |leaves|
  {
    hide LeafRefusal;
    if leaves != [] {
      assert leaves[0] in leaves;
      OneKindOfRefusal(defaults, leaves[1..], source);
    }
  }

  // ------------------------------------------------------------ what a caller sees

  /** What a key looks up to. */
  function Found(resolved: Resolved, key: string): Result<(Value, Option<Source>), ConfigError> {
    match Parsed(key)
    case Err(reason) => Err(Malformed(reason))
    case Ok(path) =>
      match At(resolved.tree, path)
      case None => Err(NoSuchKey)
      case Some(node) =>
        Ok((node, if node.Obj? || Formatted(path) !in resolved.sources then None else Some(resolved.sources[Formatted(path)])))
  }

  /** `get`. */
  method Lookup(resolved: Resolved, key: string) returns (r: Result<(Value, Option<Source>), ConfigError>)
    ensures r == Found(resolved, key)
  {
    var parsed := ReadKey(key);
    if parsed.Err? {
      return Err(Malformed(parsed.error));
    }
    var segments := parsed.value;
    var node := resolved.tree;
    for i := 0 to |segments|
      invariant At(resolved.tree, segments[..i]) == Some(node)
    {
      AtSnoc(resolved.tree, segments, i);
      var next := Get(node, segments[i]);
      if next.None? {
        AtNone(resolved.tree, segments, i + 1);
        return Err(NoSuchKey);
      }
      node := next.value;
    }
    assert segments[..|segments|] == segments;
    var printed := FormatKey(segments);
    return Ok((node, if node.Obj? || printed !in resolved.sources then None else Some(resolved.sources[printed])));
  }

  /** After a load, every spelling of a key gives the value and the name of the highest layer that sets it. */
  lemma {:induction false} EveryKeyHasItsWinner(
      resolved: Resolved, contents: map<Path, Entry>,
      defaults: Value, user: File, workspace: File, env: map<string, string>, key: string, path: Path)
    requires Shows(resolved.tree, resolved.sources, contents)
    requires HasWinners(contents, defaults, user, workspace, env, |ENV_OVERRIDES|)
    requires Spells(key, path)
    ensures Leaf(resolved.tree, path) <==> Winner(defaults, user, workspace, env, |ENV_OVERRIDES|, path).Some?
    ensures Leaf(resolved.tree, path) ==>
              var winner := Winner(defaults, user, workspace, env, |ENV_OVERRIDES|, path).value;
              Found(resolved, key) == Ok((winner.value, Some(winner.source)))
    ensures !Leaf(resolved.tree, path) ==> Found(resolved, key).Err? || Found(resolved, key).value.1 == None
  {
    ReadsExactlyTheSpellings(key, path);
    assert path in contents <==> Leaf(resolved.tree, path);
  }

  /** The order of the layers, one by one. */
  lemma {:induction false} HigherLayersWin(
      resolved: Resolved, contents: map<Path, Entry>,
      defaults: Value, user: File, workspace: File, env: map<string, string>, key: string, path: Path)
    requires Shows(resolved.tree, resolved.sources, contents)
    requires HasWinners(contents, defaults, user, workspace, env, |ENV_OVERRIDES|)
    requires Spells(key, path)
    ensures path == ["mentor", "model"] && "HARNESS_MENTOR_MODEL" in env ==>
              Found(resolved, key) == Ok((Str(env["HARNESS_MENTOR_MODEL"]), Some(Env)))
    ensures path == ["mentor", "effort"] && "HARNESS_MENTOR_EFFORT" in env ==>
              Found(resolved, key) == Ok((Str(env["HARNESS_MENTOR_EFFORT"]), Some(Env)))
    ensures path == ["mentor", "base_url"] && "HARNESS_MENTOR_BASE_URL" in env ==>
              Found(resolved, key) == Ok((Str(env["HARNESS_MENTOR_BASE_URL"]), Some(Env)))
    ensures path == ["daemon", "log_level"] && "HARNESS_LOG_LEVEL" in env ==>
              Found(resolved, key) == Ok((Str(env["HARNESS_LOG_LEVEL"]), Some(Env)))
    ensures env == map[] && workspace.Table? && Leaf(workspace.table, path) ==>
              Found(resolved, key) == Ok((At(workspace.table, path).value, Some(Workspace)))
    ensures env == map[] && !Defines(workspace, path) && user.Table? && Leaf(user.table, path) ==>
              Found(resolved, key) == Ok((At(user.table, path).value, Some(User)))
    ensures env == map[] && !Defines(workspace, path) && !Defines(user, path) && Leaf(defaults, path) ==>
              Found(resolved, key) == Ok((At(defaults, path).value, Some(Default)))
  {
    EveryKeyHasItsWinner(resolved, contents, defaults, user, workspace, env, key, path);
    EnvOf(env, path);
    hide Shows, HasWinners, Found, Spells, EnvValue, Leaf;
  }

  lemma EnvOf(env: map<string, string>, path: Path)
    ensures path == ["mentor", "model"] && "HARNESS_MENTOR_MODEL" in env ==>
              EnvValue(env, |ENV_OVERRIDES|, path) == Some(env["HARNESS_MENTOR_MODEL"])
    ensures path == ["mentor", "effort"] && "HARNESS_MENTOR_EFFORT" in env ==>
              EnvValue(env, |ENV_OVERRIDES|, path) == Some(env["HARNESS_MENTOR_EFFORT"])
    ensures path == ["mentor", "base_url"] && "HARNESS_MENTOR_BASE_URL" in env ==>
              EnvValue(env, |ENV_OVERRIDES|, path) == Some(env["HARNESS_MENTOR_BASE_URL"])
    ensures path == ["daemon", "log_level"] && "HARNESS_LOG_LEVEL" in env ==>
              EnvValue(env, |ENV_OVERRIDES|, path) == Some(env["HARNESS_LOG_LEVEL"])
    ensures env == map[] ==> EnvValue(env, |ENV_OVERRIDES|, path) == None
  {
    assert EnvValue(env, 0, path) == None;
    assert EnvValue(env, 1, path) == if ENV_PATHS[0] == path && ENV_OVERRIDES[0].0 in env then Some(env[ENV_OVERRIDES[0].0]) else None;
    assert EnvValue(env, 2, path) == if ENV_PATHS[1] == path && ENV_OVERRIDES[1].0 in env then Some(env[ENV_OVERRIDES[1].0]) else EnvValue(env, 1, path);
    assert EnvValue(env, 3, path) == if ENV_PATHS[2] == path && ENV_OVERRIDES[2].0 in env then Some(env[ENV_OVERRIDES[2].0]) else EnvValue(env, 2, path);
    assert EnvValue(env, 4, path) == if ENV_PATHS[3] == path && ENV_OVERRIDES[3].0 in env then Some(env[ENV_OVERRIDES[3].0]) else EnvValue(env, 3, path);
    assert ["mentor", "model"][1] != ["mentor", "effort"][1];
    assert ["mentor", "model"][1] != ["mentor", "base_url"][1];
    assert ["mentor", "effort"][1] != ["mentor", "base_url"][1];
    assert ["mentor", "model"][0] != ["daemon", "log_level"][0];
  }

  /** A default without members admits none: a table that starts empty can only be given by name in the schema. */
  lemma {:induction false} EmptyTablesStayEmpty(defaults: Value, table: Path, member: string, value: Value, source: Source)
    requires At(defaults, table) == Some(Obj(map[])) && table != [] && table[0] != PRICING
    ensures LeafRefusal(defaults, table + [member], value, source) == Some(UnknownKey)
  {
    AtJoin(defaults, table, [member]);
    assert (table + [member])[0] == table[0];
  }

  const SHELL_ENV: Path := ["tools", "shell", "env"]

  function Shell(env: Value): Value {
    Obj(map["tools" := Obj(map["shell" := Obj(map["env" := env])])])
  }

  /** The documented `CI=1` of the shell tool: the layer that gives it is refused, whatever validation would say. */
  lemma {:induction false} ShellVariableIsRefused(source: Source, valid: Value -> bool)
    ensures var defaults, layer := Shell(Obj(map[])), Shell(Obj(map["CI" := Str("1")]));
            && SchemaShaped(defaults)
            && At(layer, SHELL_ENV + ["CI"]) == Some(Str("1"))
            && LayerFailure(defaults, defaults, layer, source, valid) == Some(UnknownKey)
  {
    var empty, env := Obj(map[]), Obj(map["CI" := Str("1")]);
    ShellLeaves(empty);
    ShellLeaves(env);
    OneMember("CI", Str("1"), SHELL_ENV);
    hide LeafList, MemberLeaves;
    EmptyTablesStayEmpty(Shell(empty), SHELL_ENV, "CI", Str("1"), source);
    AtJoin(Shell(env), SHELL_ENV, ["CI"]);
    assert ["CI"][1..] == [];
    LeavesOfTree(Shell(empty));
    NoLeaves(Shell(empty));
  }

  lemma NoLeaves(tree: Value)
    requires tree.Obj? && LeavesOf([], tree)
    ensures SchemaShaped(tree)
  {}

  lemma {:induction false} OneMember(k: string, v: Value, prefix: Path)
    ensures LeafList(Obj(map[k := v]), prefix) == LeafList(v, prefix + [k])
  {
    var node := Obj(map[k := v]);
    assert First({k}) == k;
    assert {k} - {k} == {};
    assert node.fields.Keys == {k};
    assert MemberLeaves(node, prefix, {k}) == LeafList(v, prefix + [k]) + MemberLeaves(node, prefix, {});
    assert LeafList(v, prefix + [k]) + [] == LeafList(v, prefix + [k]);
  }

  lemma {:induction false} ShellLeaves(env: Value)
    requires env.Obj?
    ensures LeafList(Shell(env), []) == LeafList(env, SHELL_ENV)
    ensures LeafList(Obj(map[]), SHELL_ENV) == []
    ensures At(Shell(env), SHELL_ENV) == Some(env)
  {
    var shell := Obj(map["env" := env]);
    var tools := Obj(map["shell" := shell]);
    OneMember("env", env, ["tools", "shell"]);
    OneMember("shell", shell, ["tools"]);
    OneMember("tools", tools, []);
    assert [] + ["tools"] == ["tools"] && ["tools"] + ["shell"] == ["tools", "shell"];
    assert ["tools", "shell"] + ["env"] == SHELL_ENV;
    hide LeafList;
    assert SHELL_ENV[1..] == ["shell", "env"] && ["shell", "env"][1..] == ["env"] && ["env"][1..] == [];
    assert At(shell, ["env"]) == Some(env);
    assert At(tools, ["shell", "env"]) == Some(env);
  }
}

/**
 Layered configuration: built-in defaults, then the user's file, then the
 workspace's file, then environment overrides. Layers are merged leaf by leaf
 into one tree while a side table records, per printed key, which layer won.
 */
module ConfigMerge {
  import opened Common
  import opened Json
  import opened KeyPath

  datatype Source = Default | User | Workspace | Env

  datatype ConfigError =
    | Unreadable | Syntax | UnknownKey | WrongType | KeyNotOverridable | Invalid
    | Malformed(reason: BadKey) | NoSuchKey

  // ------------------------------------------------------------ which keys a layer may set

  datatype Kind = NullKind | BooleanKind | NumberKind | StringKind | ArrayKind | TableKind

  function TypeName(v: Value): Kind {
    match v
    case Null => NullKind
    case Bool(_) => BooleanKind
    case Num(_) => NumberKind
    case Str(_) => StringKind
    case Arr(_) => ArrayKind
    case Obj(_) => TableKind
  }

  const PRICING := "pricing"
  const TEMPLATE: Path := [PRICING, "claude-opus-5"]

  /** A field of a model the price table does not have yet. */
  predicate NewPrice(defaults: Value, path: Path) {
    && |path| == 3 && path[0] == PRICING
    && At(defaults, path[..1]).Some? && At(defaults, path[..2]).None?
  }

  /** What the defaults hold for a key; nothing when the key does not exist. */
  function Expected(defaults: Value, path: Path): Option<Value> {
    if NewPrice(defaults, path) then At(defaults, TEMPLATE + path[2..]) else At(defaults, path)
  }

  /** The paths at which a merged tree can have leaves. */
  predicate Allowed(defaults: Value, path: Path) {
    Expected(defaults, path).Some? && !Expected(defaults, path).value.Obj?
  }

  /** Why a layer's leaf is refused, if it is. */
  function Refusal(defaults: Value, path: Path, value: Value): Option<ConfigError> {
    match Expected(defaults, path)
    case None => Some(UnknownKey)
    case Some(expected) => if TypeName(expected) == TypeName(value) then None else Some(WrongType)
  }

  lemma {:induction false} AtSnoc(v: Value, path: Path, i: nat)
    requires i < |path|
    ensures At(v, path[..i + 1]) ==
            if At(v, path[..i]).Some? then At(At(v, path[..i]).value, [path[i]]) else None
  {
    assert path[..i + 1] == path[..i] + [path[i]];
    if At(v, path[..i]).Some? {
      AtJoin(v, path[..i], [path[i]]);
    } else if At(v, path[..i + 1]).Some? {
      AtPrefix(v, path[..i], path[..i + 1]);
    }
  }

  lemma {:induction false} AtNone(v: Value, path: Path, i: nat)
    requires i <= |path| && At(v, path[..i]).None?
    ensures At(v, path).None?
  {
    if At(v, path).Some? {
      AtPrefix(v, path[..i], path);
    }
  }

  /** `get` on one node: members of objects only. */
  function Get(node: Value, key: string): (r: Option<Value>)
    ensures r == At(node, [key])
  {
    assert [key][1..] == [];
    if node.Obj? && key in node.fields then Some(node.fields[key]) else None
  }

  lemma KnownIsNotNew(defaults: Value, path: Path)
    requires At(defaults, path).Some?
    ensures !NewPrice(defaults, path)
  {
    if |path| == 3 {
      AtPrefix(defaults, path[..2], path);
    }
  }

  /** `check_known`: the walk down the defaults agrees with the table of expected values. */
  method CheckKnown(defaults: Value, segments: Path, value: Value) returns (refusal: Option<ConfigError>)
    requires !value.Obj?
    ensures refusal == Refusal(defaults, segments, value)
  {
    var node := defaults;
    for i := 0 to |segments|
      invariant At(defaults, segments[..i]) == Some(node)
    {
      AtSnoc(defaults, segments, i);
      var next := Get(node, segments[i]);
      if next.None? {
        AtNone(defaults, segments, i + 1);
        if |segments| == 3 && segments[0] == PRICING && i == 1 {
          refusal := CheckNewPrice(defaults, segments, value);
          return;
        }
        return Some(UnknownKey);
      }
      node := next.value;
    }
    assert segments[..|segments|] == segments;
    KnownIsNotNew(defaults, segments);
    if node.Obj? {
      return Some(WrongType);
    }
    return if TypeName(node) == TypeName(value) then None else Some(WrongType);
  }

  method CheckNewPrice(defaults: Value, segments: Path, value: Value) returns (refusal: Option<ConfigError>)
    requires NewPrice(defaults, segments)
    ensures refusal == Refusal(defaults, segments, value)
  {
    var template := Get(defaults, PRICING);
    template := if template.Some? then Get(template.value, "claude-opus-5") else None;
    var expected := if template.Some? then Get(template.value, segments[2]) else None;
    TemplateField(defaults, segments[2]);
    assert segments[2..] == [segments[2]];
    if expected.None? {
      return Some(UnknownKey);
    }
    return if TypeName(expected.value) == TypeName(value) then None else Some(WrongType);
  }

  lemma {:induction false} TemplateField(defaults: Value, field: string)
    ensures At(defaults, TEMPLATE + [field]) ==
            var pricing := At(defaults, [PRICING]);
            var entry := if pricing.Some? then At(pricing.value, ["claude-opus-5"]) else None;
            if entry.Some? then At(entry.value, [field]) else None
  {
    var path := TEMPLATE + [field];
    AtSnoc(defaults, path, 0);
    AtSnoc(defaults, path, 1);
    AtSnoc(defaults, path, 2);
    assert path[..3] == path && path[..2] == TEMPLATE && path[..1] == [PRICING];
  }

  // ------------------------------------------------------------ setting one leaf

  function Members(v: Value): map<string, Value> {
    if v.Obj? then v.fields else map[]
  }

  /** The tree with `value` at `path`, whatever stood in the way. */
  function SetLeaf(tree: Value, path: Path, value: Value): Value
    decreases |path|
  {
    if path == [] then value
    else
      var fields := Members(tree);
      var child := if path[0] in fields then fields[path[0]] else Obj(map[]);
      Obj(fields[path[0] := SetLeaf(child, path[1..], value)])
  }

  lemma {:induction false} SetReadsBack(tree: Value, path: Path, value: Value)
    ensures At(SetLeaf(tree, path, value), path) == Some(value)
    decreases |path|
  {
    if path != [] {
      var fields := Members(tree);
      SetReadsBack(if path[0] in fields then fields[path[0]] else Obj(map[]), path[1..], value);
    }
  }

  lemma {:induction false} SetReads(tree: Value, path: Path, value: Value, q: Path)
    ensures Unrelated(path, q) ==> At(SetLeaf(tree, path, value), q) == At(tree, q)
    ensures q < path ==> At(SetLeaf(tree, path, value), q).Some? && At(SetLeaf(tree, path, value), q).value.Obj?
    ensures !value.Obj? && path < q ==> At(SetLeaf(tree, path, value), q).None?
    decreases |path|
  {
    if path != [] && q != [] && q[0] == path[0] {
      var fields := Members(tree);
      var child := if path[0] in fields then fields[path[0]] else Obj(map[]);
      SetReads(child, path[1..], value, q[1..]);
      if Unrelated(path, q) {
        UnrelatedTails(path, q);
      }
    }
  }

  lemma {:induction false} UnrelatedTails(p: Path, q: Path)
    requires p != [] && q != [] && p[0] == q[0]
    ensures Unrelated(p, q) ==> Unrelated(p[1..], q[1..]) && q[1..] != []
  {
    if p[1..] <= q[1..] {
      assert p == [p[0]] + p[1..] && q == [q[0]] + q[1..];
    } else if q[1..] <= p[1..] {
      assert p == [p[0]] + p[1..] && q == [q[0]] + q[1..];
    }
  }

  /** Setting a leaf off every other leaf's path adds or replaces exactly that leaf. */
  lemma {:induction false} SetAddsOneLeaf(tree: Value, path: Path, value: Value, q: Path)
    requires !value.Obj?
    requires Leaf(tree, q) && q != path ==> Unrelated(path, q)
    ensures Leaf(SetLeaf(tree, path, value), q) <==> q == path || Leaf(tree, q)
    ensures Leaf(tree, q) && q != path ==> At(SetLeaf(tree, path, value), q) == At(tree, q)
    ensures At(SetLeaf(tree, path, value), path) == Some(value)
  {
    SetReadsBack(tree, path, value);
    SetReads(tree, path, value, q);
    if path != q && !Unrelated(path, q) {
      assert q < path || path < q;
    }
  }

  // ------------------------------------------------------------ printed keys name paths uniquely

  /** Facts about the built-in defaults on which the bookkeeping by printed key rests. */
  ghost predicate SchemaShaped(defaults: Value) {
    && defaults.Obj?
    && (forall p | Leaf(defaults, p) :: AllQuoteFree(p))
    && (forall p | Leaf(defaults, p) && p[0] == PRICING :: |p| == 3 && !NeedsQuotes(p[2]))
  }

  lemma {:induction false} PricePaths(defaults: Value, p: Path)
    requires SchemaShaped(defaults) && Allowed(defaults, p)
    ensures p != []
    ensures NewPrice(defaults, p) ==> !NeedsQuotes(p[2]) && At(defaults, p).None?
    ensures !NewPrice(defaults, p) ==> Leaf(defaults, p) && AllQuoteFree(p)
    ensures p[0] == PRICING ==> |p| == 3 && !NeedsQuotes(p[2])
  {
    if NewPrice(defaults, p) {
      var t := TEMPLATE + p[2..];
      assert Leaf(defaults, t) && t[0] == PRICING && t[2] == p[2];
      AtNone(defaults, p, 2);
    }
  }

  lemma {:induction false} PrintsThree(a: string, b: string, c: string)
    ensures Formatted([a, b, c]) == Shown(a) + ("." + (Shown(b) + ("." + Shown(c))))
  {
    assert [a, b, c][1..] == [b, c];
    PrintsTwo(b, c);
  }

  lemma {:induction false} LaterDot(a: string, f: string, b: string, g: string)
    requires '.' !in f && |a| < |b|
    ensures a + ("." + f) != b + ("." + g)
  {
    var s, t := a + ("." + f), b + ("." + g);
    if |b| < |s| {
      assert s[|b|] == f[|b| - |a| - 1] && t[|b|] == '.';
    }
  }

  lemma {:induction false} LastDot(a: string, f: string, b: string, g: string)
    requires a + ("." + f) == b + ("." + g)
    requires '.' !in f && '.' !in g
    ensures a == b && f == g
  {
    var s, t := a + ("." + f), b + ("." + g);
    if |a| == |b| {
      assert s[..|a|] == a && t[..|b|] == b && s[|a| + 1..] == f && t[|b| + 1..] == g;
    } else if |a| < |b| {
      LaterDot(a, f, b, g);
    } else {
      LaterDot(b, g, a, f);
    }
  }

  lemma {:induction false} ShownIsInjective(a: string, b: string)
    requires Shown(a) == Shown(b)
    ensures a == b
  {
    assert NeedsQuotes(a) ==> Shown(a)[0] == '"' && Shown(a)[1..|a| + 1] == a;
    assert NeedsQuotes(b) ==> Shown(b)[0] == '"' && Shown(b)[1..|b| + 1] == b;
  }

  lemma {:induction false} PlainHasNoDot(f: string)
    requires !NeedsQuotes(f)
    ensures '.' !in f && '"' !in f
  {
    forall i | 0 <= i < |f| ensures f[i] != '.' && f[i] != '"' {
      assert Plain(f[i]);
    }
  }

  lemma {:induction false} SamePrice(p: Path, q: Path)
    requires |p| == |q| == 3 && p[0] == q[0] && !NeedsQuotes(p[2]) && !NeedsQuotes(q[2])
    requires Formatted(p) == Formatted(q)
    ensures p == q
  {
    PrintsThree(p[0], p[1], p[2]);
    PrintsThree(q[0], q[1], q[2]);
    assert p == [p[0], p[1], p[2]] && q == [q[0], q[1], q[2]];
    PlainHasNoDot(p[2]);
    PlainHasNoDot(q[2]);
    SameTail(Shown(p[0]), Shown(p[1]) + ("." + Shown(p[2])), Shown(q[1]) + ("." + Shown(q[2])));
    LastDot(Shown(p[1]), p[2], Shown(q[1]), q[2]);
    ShownIsInjective(p[1], q[1]);
  }

  lemma {:induction false} SameTail(a: string, x: string, y: string)
    requires a + ("." + x) == a + ("." + y)
    ensures x == y
  {
    assert (a + ("." + x))[|a| + 1..] == x && (a + ("." + y))[|a| + 1..] == y;
  }

  lemma {:induction false} FirstDot(a: string, head: string, tail: string)
    requires '.' !in a && '.' !in head && (tail == "" || tail[0] == '.')
    ensures a + "." <= head + tail <==> head == a && tail != ""
  {
    var s, t := a + ".", head + tail;
    assert s[|a|] == '.';
    if |a| < |head| {
      assert t[|a|] == head[|a|];
    } else if |head| < |a| && tail != "" {
      assert t[|head|] == tail[0] && s[|head|] == a[|head|];
    } else if s <= t {
      assert s[..|a|] == a && t[..|a|] == head;
    }
  }

  /** A bare first segment shows in the printed key, and nothing else looks like it. */
  lemma {:induction false} BareHead(p: Path, a: string)
    requires p != [] && !NeedsQuotes(a)
    ensures a + "." <= Formatted(p) <==> |p| >= 2 && p[0] == a
  {
    PlainHasNoDot(a);
    var head, tail := Shown(p[0]), Dotted(p[1..]);
    if NeedsQuotes(p[0]) {
      assert (head + tail)[0] == '"' && (a + ".")[0] == a[0];
    } else {
      PlainHasNoDot(p[0]);
      FirstDot(a, head, tail);
    }
  }

  /** Two paths a merged tree can hold never share a printed key, not even where a model name holds quotes. */
  lemma {:induction false} NoCollision(defaults: Value, p: Path, q: Path)
    requires SchemaShaped(defaults) && Allowed(defaults, p) && Allowed(defaults, q)
    requires Formatted(p) == Formatted(q)
    ensures p == q
  {
    PricePaths(defaults, p);
    PricePaths(defaults, q);
    if !NewPrice(defaults, p) && !NewPrice(defaults, q) {
      FormatIsInjective(p, q);
    } else if NewPrice(defaults, p) {
      PriceHead(p, q);
      SamePrice(p, q);
    } else {
      PriceHead(q, p);
      SamePrice(p, q);
    }
  }

  lemma {:induction false} PriceHead(p: Path, q: Path)
    requires |p| >= 2 && q != [] && p[0] == PRICING && Formatted(p) == Formatted(q)
    ensures q[0] == PRICING
  {
    assert !NeedsQuotes(PRICING);
    BareHead(p, PRICING);
    BareHead(q, PRICING);
  }

  /** Nor does one lie below another. */
  lemma {:induction false} AllowedAreUnrelated(defaults: Value, p: Path, q: Path)
    requires SchemaShaped(defaults) && Allowed(defaults, p) && Allowed(defaults, q)
    requires p <= q
    ensures p == q
  {
    PricePaths(defaults, p);
    PricePaths(defaults, q);
    if NewPrice(defaults, q) {
      assert |p| == 3;
    } else {
      AtPrefix(defaults, p, q);
    }
  }

  // ------------------------------------------------------------ workspace files

  const OVERRIDABLE: seq<string> := [
    "mentor.model", "mentor.effort", "mentor.max_tokens", "apprentice.", "permissions.", "tools.", "runtime."
  ]

  function StripSuffix(s: string): Option<string> {
    if s != "" && s[|s| - 1] == '.' then Some(s[..|s| - 1]) else None
  }

  predicate Permits(allowed: string, key: string) {
    match StripSuffix(allowed)
    case Some(prefix) => prefix <= key && |prefix| < |key| && key[|prefix|] == '.'
    case None => key == allowed
  }

  /** `workspace_overridable`, on the printed key. */
  predicate WorkspaceOverridable(key: string) {
    exists i | 0 <= i < |OVERRIDABLE| :: Permits(OVERRIDABLE[i], key)
  }

  /** What that means for the path. */
  predicate MayOverride(path: Path) {
    || path == ["mentor", "model"] || path == ["mentor", "effort"] || path == ["mentor", "max_tokens"]
    || (|path| >= 2 && path[0] in {"apprentice", "permissions", "tools", "runtime"})
  }

  lemma {:induction false} PermitsSection(section: string, path: Path)
    requires path != [] && !NeedsQuotes(section)
    ensures Permits(section + ".", Formatted(path)) <==> |path| >= 2 && path[0] == section
  {
    var allowed, key := section + ".", Formatted(path);
    assert allowed[..|allowed| - 1] == section;
    BareHead(path, section);
    assert Permits(allowed, key) <==> allowed <= key;
  }

  lemma {:induction false} PermitsKey(section: string, field: string, path: Path)
    requires path != [] && !NeedsQuotes(section) && !NeedsQuotes(field)
    ensures Permits(section + ("." + field), Formatted(path)) <==> path == [section, field]
  {
    var allowed := section + ("." + field);
    assert allowed[|allowed| - 1] == field[|field| - 1] && Plain(field[|field| - 1]);
    PrintsTwo(section, field);
    if Formatted(path) == allowed {
      BareHead([section, field], section);
      BareHead(path, section);
      assert path == [section] + path[1..];
      OneField(path, section, field);
    }
  }

  lemma {:induction false} OneField(path: Path, section: string, field: string)
    requires |path| >= 2 && path[0] == section && !NeedsQuotes(section) && !NeedsQuotes(field)
    requires Formatted(path) == section + ("." + field)
    ensures path == [section, field]
  {
    var rest := Formatted(path[1..]);
    assert Dotted(path[1..]) == "." + rest;
    SameTail(section, rest, field);
    PlainHasNoDot(field);
    SeveralHaveDots(path[1..]);
    assert path == [section, path[1]] && path[1..] == [path[1]];
    PrintsOne(path[1]);
    ShownIsInjective(path[1], field);
  }

  lemma {:induction false} SeveralHaveDots(path: Path)
    ensures |path| > 1 ==> '.' in Formatted(path)
  {
    if |path| > 1 {
      assert Formatted(path)[|Shown(path[0])|] == Dotted(path[1..])[0];
    }
  }

  lemma {:induction false} OverridableCases(key: string)
    ensures WorkspaceOverridable(key) <==>
            || Permits("mentor" + ("." + "model"), key) || Permits("mentor" + ("." + "effort"), key)
            || Permits("mentor" + ("." + "max_tokens"), key)
            || Permits("apprentice" + ".", key) || Permits("permissions" + ".", key)
            || Permits("tools" + ".", key) || Permits("runtime" + ".", key)
  {
    assert OVERRIDABLE[0] == "mentor" + ("." + "model") && OVERRIDABLE[1] == "mentor" + ("." + "effort");
    assert OVERRIDABLE[2] == "mentor" + ("." + "max_tokens") && OVERRIDABLE[3] == "apprentice" + ".";
    assert OVERRIDABLE[4] == "permissions" + "." && OVERRIDABLE[5] == "tools" + "." && OVERRIDABLE[6] == "runtime" + ".";
    assert WorkspaceOverridable(key) <==>
      || Permits(OVERRIDABLE[0], key) || Permits(OVERRIDABLE[1], key) || Permits(OVERRIDABLE[2], key)
      || Permits(OVERRIDABLE[3], key) || Permits(OVERRIDABLE[4], key) || Permits(OVERRIDABLE[5], key)
      || Permits(OVERRIDABLE[6], key);
  }

  /** The whitelist of printed keys lets through exactly the intended paths: quoting cannot forge a section. */
  lemma {:induction false} OverridableByPath(path: Path)
    requires path != []
    ensures WorkspaceOverridable(Formatted(path)) <==> MayOverride(path)
  {
    OverridableCases(Formatted(path));
    PlainFields();
    PlainSections();
    PermitsKey("mentor", "model", path);
    PermitsKey("mentor", "effort", path);
    PermitsKey("mentor", "max_tokens", path);
    PermitsSection("apprentice", path);
    PermitsSection("permissions", path);
    PermitsSection("tools", path);
    PermitsSection("runtime", path);
  }

  lemma PlainFields()
    ensures !NeedsQuotes("mentor") && !NeedsQuotes("model") && !NeedsQuotes("effort") && !NeedsQuotes("max_tokens")
  {}

  lemma PlainSections()
    ensures !NeedsQuotes("apprentice") && !NeedsQuotes("permissions") && !NeedsQuotes("tools") && !NeedsQuotes("runtime")
  {}
}

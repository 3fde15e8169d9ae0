/** JSON values; the members of an object are unordered. */
module Json {
  import opened Common

  datatype Value =
    | Null
    | Bool(b: bool)
    | Num(n: real)
    | Str(s: string)
    | Arr(items: seq<Value>)
    | Obj(fields: map<string, Value>)

  type Path = seq<string>

  /** The value below `v` at `path`, objects only. */
  function At(v: Value, path: Path): Option<Value> {
    if path == [] then Some(v)
    else if v.Obj? && path[0] in v.fields then At(v.fields[path[0]], path[1..])
    else None
  }

  /** A leaf is anything but an object; arrays are leaves. */
  predicate Leaf(v: Value, path: Path) {
    At(v, path).Some? && !At(v, path).value.Obj?
  }

  predicate Unrelated(p: Path, q: Path) {
    !(p <= q) && !(q <= p)
  }

  lemma {:induction false} AtJoin(v: Value, p: Path, q: Path)
    requires At(v, p).Some?
    ensures At(v, p + q) == At(At(v, p).value, q)
  {
    if p == [] {
      assert p + q == q;
    } else {
      assert (p + q)[1..] == p[1..] + q;
      AtJoin(v.fields[p[0]], p[1..], q);
    }
  }

  /** Only objects have anything below them. */
  lemma {:induction false} AtPrefix(v: Value, p: Path, q: Path)
    requires p <= q && At(v, q).Some?
    ensures At(v, p).Some? && (p != q ==> At(v, p).value.Obj?)
  {
    if p != [] {
      AtPrefix(v.fields[p[0]], p[1..], q[1..]);
    }
  }

  /** So no leaf lies below another. */
  lemma LeavesAreUnrelated(v: Value, p: Path, q: Path)
    requires Leaf(v, p) && At(v, q).Some? && p <= q
    ensures p == q
  {
    AtPrefix(v, p, q);
  }

  datatype Step = Field(key: string) | Index(i: nat)

  function Child(v: Value, step: Step): Option<Value> {
    match step
    case Field(k) => if v.Obj? && k in v.fields then Some(v.fields[k]) else None
    case Index(i) => if v.Arr? && i < |v.items| then Some(v.items[i]) else None
  }

  /** The value below `v` along steps through objects and arrays. */
  function Below(v: Value, steps: seq<Step>): Option<Value> {
    if steps == [] then Some(v)
    else if Child(v, steps[0]).Some? then Below(Child(v, steps[0]).value, steps[1..])
    else None
  }

  /** The values differ in their strings at most. */
  ghost predicate SameShape(a: Value, b: Value) {
    match a
    case Str(_) => b.Str?
    case Arr(items) =>
      b.Arr? && |b.items| == |items| && forall i | 0 <= i < |items| :: SameShape(items[i], b.items[i])
    case Obj(fields) =>
      b.Obj? && b.fields.Keys == fields.Keys && forall k | k in fields :: SameShape(fields[k], b.fields[k])
    case _ => b == a
  }

  lemma {:induction false} SameIsSameShape(a: Value)
    ensures SameShape(a, a)
  {
    match a
    case Arr(items) => forall i | 0 <= i < |items| ensures SameShape(items[i], items[i]) { SameIsSameShape(items[i]); }
    case Obj(fields) => forall k | k in fields ensures SameShape(fields[k], fields[k]) { SameIsSameShape(fields[k]); }
    case _ =>
  }

  /** A member of an object, as an index expression reads it. */
  function Member(v: Value, key: string): Option<Value> {
    if v.Obj? && key in v.fields then Some(v.fields[key]) else None
  }
}

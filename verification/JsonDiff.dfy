/**
 The replay checker's account of a failed rebuild: where the rebuilt request and
 the stored one differ, as bytes and as JSON.
 */
module JsonDiff {
  import opened Common
  import opened Json

  /** `Gone`: the rebuilt value has the member, the body does not; `Extra`: the other way round. */
  datatype Kind = Gone(key: string) | Extra(key: string) | Lengths(builtLength: nat, storedLength: nat)
    | Values(built: Value, stored: Value)

  datatype Difference = Difference(path: seq<Step>, kind: Kind)

  /** The difference is there, and in lists and member sets nothing that comes before it differs. */
  ghost predicate IsReal(d: Difference, expected: Value, actual: Value)
    decreases |d.path|
  {
    if d.path == [] then
      match d.kind
      case Gone(k) => expected.Obj? && actual.Obj? && k in expected.fields && k !in actual.fields
      case Extra(k) =>
        expected.Obj? && actual.Obj? && k !in expected.fields && k in actual.fields
        && forall j | j in expected.fields :: j in actual.fields && actual.fields[j] == expected.fields[j]
      case Lengths(m, n) =>
        expected.Arr? && actual.Arr? && m == |expected.items| && n == |actual.items| && m != n
        && (expected.items <= actual.items || actual.items <= expected.items)
      case Values(x, y) =>
        x == expected && y == actual && x != y && !(x.Obj? && y.Obj?) && !(x.Arr? && y.Arr?)
    else
      var below := Difference(d.path[1..], d.kind);
      match d.path[0]
      case Field(k) =>
        expected.Obj? && actual.Obj? && k in expected.fields && k in actual.fields
        && IsReal(below, expected.fields[k], actual.fields[k])
      case Index(i) =>
        expected.Arr? && actual.Arr? && i < |expected.items| && i < |actual.items|
        && expected.items[..i] == actual.items[..i]
        && IsReal(below, expected.items[i], actual.items[i])
  }

  /** A real difference is a difference. */
  lemma {:induction false} RealMeansDifferent(d: Difference, expected: Value, actual: Value)
    requires IsReal(d, expected, actual)
    ensures expected != actual
    decreases |d.path|
  {
    if d.path != [] {
      var below := Difference(d.path[1..], d.kind);
      match d.path[0]
      case Field(k) => RealMeansDifferent(below, expected.fields[k], actual.fields[k]);
      case Index(i) => RealMeansDifferent(below, expected.items[i], actual.items[i]);
    }
  }

  lemma Deeper(step: Step, d: Difference)
    ensures Difference(([step] + d.path)[1..], d.kind) == d
  {
    assert ([step] + d.path)[1..] == d.path;
  }

  /** `first_diff`: nothing exactly when the trees are equal, a real difference otherwise. */
  method FirstDiff(expected: Value, actual: Value) returns (d: Option<Difference>)
    ensures d.None? <==> expected == actual
    ensures d.Some? ==> IsReal(d.value, expected, actual)
    decreases expected, 1
  {
    if expected.Obj? && actual.Obj? {
      d := DiffMembers(expected, actual);
    } else if expected.Arr? && actual.Arr? {
      d := DiffItems(expected, actual);
    } else if expected == actual {
      d := None;
    } else {
      d := Some(Difference([], Values(expected, actual)));
    }
  }

  method DiffMembers(expected: Value, actual: Value) returns (d: Option<Difference>)
    requires expected.Obj? && actual.Obj?
    ensures d.None? <==> expected == actual
    ensures d.Some? ==> IsReal(d.value, expected, actual)
    decreases expected, 0
  {
    var e, a := expected.fields, actual.fields;
    var left := e.Keys;
    while left != {}
      invariant left <= e.Keys
      invariant forall k | k in e.Keys - left :: k in a && a[k] == e[k]
      decreases left
    {
      var k :| k in left;
      if k !in a {
        return Some(Difference([], Gone(k)));
      }
      var below := FirstDiff(e[k], a[k]);
      if below.Some? {
        Deeper(Field(k), below.value);
        return Some(Difference([Field(k)] + below.value.path, below.value.kind));
      }
      left := left - {k};
    }
    var extra := a.Keys - e.Keys;
    if extra != {} {
      var k :| k in extra;
      return Some(Difference([], Extra(k)));
    }
    assert forall k | k in a :: k in e;
    assert forall k | k in e :: k in e.Keys - left;
    assert e == a;
    return None;
  }

  method DiffItems(expected: Value, actual: Value) returns (d: Option<Difference>)
    requires expected.Arr? && actual.Arr?
    ensures d.None? <==> expected == actual
    ensures d.Some? ==> IsReal(d.value, expected, actual)
    decreases expected, 0
  {
    var e, a := expected.items, actual.items;
    var n := if |e| < |a| then |e| else |a|;
    for i := 0 to n
      invariant e[..i] == a[..i]
    {
      var below := FirstDiff(e[i], a[i]);
      if below.Some? {
        Deeper(Index(i), below.value);
        return Some(Difference([Index(i)] + below.value.path, below.value.kind));
      }
      assert e[..i + 1] == e[..i] + [e[i]] && a[..i + 1] == a[..i] + [a[i]];
    }
    assert e[..|e|] == e && a[..|a|] == a;
    return if |e| != |a| then Some(Difference([], Lengths(|e|, |a|))) else None;
  }

  /** `first_difference`: the first byte at which two bodies differ, or where the shorter one ends. */
  method FirstDifference<T(==)>(a: seq<T>, b: seq<T>) returns (at: nat)
    ensures at <= |a| && at <= |b| && a[..at] == b[..at]
    ensures at < |a| && at < |b| ==> a[at] != b[at]
  {
    at := 0;
    while at < |a| && at < |b| && a[at] == b[at]
      invariant at <= |a| && at <= |b| && a[..at] == b[..at]
    {
      assert a[..at + 1] == a[..at] + [a[at]] && b[..at + 1] == b[..at] + [b[at]];
      at := at + 1;
    }
  }
}

/** The order of texts, and the members of an object taken in that order. */
module Order {

  predicate LexBefore(a: string, b: string) {
    if a == "" then true
    else b != "" && (a[0] < b[0] || (a[0] == b[0] && LexBefore(a[1..], b[1..])))
  }

  lemma {:induction false} LexTotal(a: string, b: string)
    ensures LexBefore(a, b) || LexBefore(b, a)
    ensures LexBefore(a, b) && LexBefore(b, a) ==> a == b
  {
    if a != "" && b != "" && a[0] == b[0] {
      LexTotal(a[1..], b[1..]);
    }
  }

  lemma {:induction false} LexTransitive(a: string, b: string, c: string)
    requires LexBefore(a, b) && LexBefore(b, c)
    ensures LexBefore(a, c)
  {
    if a != "" && a[0] == b[0] == c[0] {
      LexTransitive(a[1..], b[1..], c[1..]);
    }
  }

  predicate IsFirst(k: string, keys: set<string>) {
    k in keys && forall j | j in keys :: LexBefore(k, j)
  }

  lemma {:induction false} FirstIsOne(keys: set<string>)
    ensures forall a, b | IsFirst(a, keys) && IsFirst(b, keys) :: a == b
  {
    forall a, b | IsFirst(a, keys) && IsFirst(b, keys) ensures a == b {
      LexTotal(a, b);
    }
  }

  /** The first of some keys. */
  function First(keys: set<string>): (k: string)
    requires keys != {}
    ensures IsFirst(k, keys)
  {
    HasFirst(keys);
    FirstIsOne(keys);
    var k :| k in keys && IsFirst(k, keys);
    k
  }

  lemma {:induction false} HasFirst(keys: set<string>)
    requires keys != {}
    ensures exists k :: IsFirst(k, keys)
  {
    var k :| k in keys;
    if keys == {k} {
      LexTotal(k, k);
      assert IsFirst(k, keys);
    } else {
      var rest := keys - {k};
      HasFirst(rest);
      var j :| IsFirst(j, rest);
      LexTotal(k, j);
      LexTotal(k, k);
      if LexBefore(k, j) {
        forall i | i in keys ensures LexBefore(k, i) {
          if i != k {
            LexTransitive(k, j, i);
          }
        }
        assert IsFirst(k, keys);
      } else {
        assert IsFirst(j, keys);
      }
    }
  }

  /** The next key of an ordered map. */
  method NextKey(keys: set<string>) returns (k: string)
    requires keys != {}
    ensures k == First(keys)
  {
    var left := keys;
    k :| k in left;
    left := left - {k};
    LexTotal(k, k);
    while left != {}
      invariant left <= keys && k in keys
      invariant forall j | j in keys - left :: LexBefore(k, j)
      decreases left
    {
      var j :| j in left;
      left := left - {j};
      LexTotal(k, j);
      LexTotal(j, j);
      if !LexBefore(k, j) {
        forall i | i in keys - left ensures LexBefore(j, i) {
          if i != j {
            LexTransitive(j, k, i);
          }
        }
        k := j;
      }
    }
    assert IsFirst(k, keys) && IsFirst(First(keys), keys);
    FirstIsOne(keys);
  }
}

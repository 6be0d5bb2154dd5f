/** The order in which a BTreeMap with string keys iterates. */
module KeyOrder {

  predicate AtMost(a: string, b: string) {
    a == "" || (b != "" && (a[0] < b[0] || (a[0] == b[0] && AtMost(a[1..], b[1..]))))
  }

  lemma {:induction false} Total(a: string, b: string)
    ensures AtMost(a, b) || AtMost(b, a)
    ensures AtMost(a, b) && AtMost(b, a) ==> a == b
  {
    if a != "" && b != "" {
      Total(a[1..], b[1..]);
      assert a == [a[0]] + a[1..] && b == [b[0]] + b[1..];
    }
  }

  lemma {:induction false} Transitive(a: string, b: string, c: string)
    requires AtMost(a, b) && AtMost(b, c)
    ensures AtMost(a, c)
  {
    if a != "" && a[0] == b[0] == c[0] {
      Transitive(a[1..], b[1..], c[1..]);
    }
  }

  ghost predicate IsFirst(k: string, keys: set<string>) {
    k in keys && forall x :: x in keys ==> AtMost(k, x)
  }

  lemma {:induction false} FirstExists(keys: set<string>)
    requires keys != {}
    ensures exists k :: IsFirst(k, keys)
    decreases |keys|
  {
    var any :| any in keys;
    Total(any, any);
    if keys == {any} {
      assert IsFirst(any, keys);
    } else {
      FirstExists(keys - {any});
      var rest :| IsFirst(rest, keys - {any});
      Total(any, rest);
      if AtMost(any, rest) {
        forall x | x in keys && x != any
          ensures AtMost(any, x)
        {
          Transitive(any, rest, x);
        }
        assert IsFirst(any, keys);
      } else {
        assert IsFirst(rest, keys);
      }
    }
  }

  /** The first key in iteration order. */
  ghost function FirstKey(keys: set<string>): (k: string)
    requires keys != {}
    ensures IsFirst(k, keys)
  {
    FirstExists(keys);
    var k :| IsFirst(k, keys);
    k
  }

  lemma FirstIsUnique(j: string, k: string, keys: set<string>)
    requires IsFirst(j, keys) && IsFirst(k, keys)
    ensures j == k
  {
    Total(j, k);
  }
}

/** The order of keys in the ordered maps and tables. */
module KeyOrder {
  import opened Protocol

  /** Lexicographic order on keys. */
  predicate Leq(a: Key, b: Key) {
    a == [] || (b != [] && (a[0] < b[0] || (a[0] == b[0] && Leq(a[1..], b[1..]))))
  }

  lemma {:induction false} LeqTotal(a: Key, b: Key)
    ensures Leq(a, b) || Leq(b, a)
  {
    if a != [] && b != [] {
      LeqTotal(a[1..], b[1..]);
    }
  }

  lemma {:induction false} LeqAntisymmetric(a: Key, b: Key)
    requires Leq(a, b) && Leq(b, a)
    ensures a == b
  {
    if a != [] && b != [] {
      LeqAntisymmetric(a[1..], b[1..]);
      assert a == [a[0]] + a[1..] && b == [b[0]] + b[1..];
    }
  }

  lemma {:induction false} LeqTransitive(a: Key, b: Key, d: Key)
    requires Leq(a, b) && Leq(b, d)
    ensures Leq(a, d)
  {
    if a != [] && b != [] && d != [] && a[0] == b[0] == d[0] {
      LeqTransitive(a[1..], b[1..], d[1..]);
    }
  }

  predicate IsLeast(k: Key, s: set<Key>) {
    k in s && forall x | x in s :: Leq(k, x)
  }

  lemma {:induction false} LeastExists(s: set<Key>) returns (k: Key)
    requires s != {}
    ensures IsLeast(k, s)
    decreases |s|
  {
    var x :| x in s;
    var rest := s - {x};
    LeqTotal(x, x);
    if rest == {} {
      k := x;
      assert s == {x};
    } else {
      var y := LeastExists(rest);
      LeqTotal(x, y);
      if Leq(x, y) {
        k := x;
        forall z | z in s ensures Leq(x, z) {
          if z != x {
            LeqTransitive(x, y, z);
          }
        }
      } else {
        k := y;
      }
    }
  }

  /** A non-empty set has exactly one least key. */
  lemma LeastKey(s: set<Key>)
    requires s != {}
    ensures exists k :: k in s && IsLeast(k, s)
    ensures forall a, b | IsLeast(a, s) && IsLeast(b, s) :: a == b
  {
    var k := LeastExists(s);
    forall a, b | IsLeast(a, s) && IsLeast(b, s) ensures a == b {
      LeqAntisymmetric(a, b);
    }
  }

  /** Strictly ascending. */
  ghost predicate Ascending(keys: seq<Key>) {
    forall i, j | 0 <= i < j < |keys| :: keys[i] != keys[j] && Leq(keys[i], keys[j])
  }

  /** The iteration order of an ordered map. */
  function SortedKeys(s: set<Key>): seq<Key>
    decreases |s|
  {
    if s == {} then []
    else
      LeastKey(s);
      var k :| k in s && IsLeast(k, s);
      [k] + SortedKeys(s - {k})
  }

  /** It lists exactly the keys, in strictly ascending order. */
  lemma {:induction false} SortedKeysAscend(s: set<Key>)
    ensures Ascending(SortedKeys(s))
    ensures forall k :: k in SortedKeys(s) <==> k in s
    decreases |s|
  {
    if s != {} {
      LeastKey(s);
      var k := SortedKeys(s)[0];
      assert k in s && IsLeast(k, s);
      SortedKeysAscend(s - {k});
      PrependLeast(s, k, SortedKeys(s - {k}));
    }
  }

  lemma PrependLeast(s: set<Key>, k: Key, rest: seq<Key>)
    requires k in s && IsLeast(k, s) && Ascending(rest)
    requires forall x :: x in rest <==> x in s - {k}
    ensures Ascending([k] + rest)
    ensures forall x :: x in [k] + rest <==> x in s
  {
    forall j | 0 <= j < |rest| ensures rest[j] != k && Leq(k, rest[j]) {
      assert rest[j] in rest;
    }
  }

  /** There is only one ascending list of a set of keys. */
  lemma {:induction false} SortedUnique(a: seq<Key>, b: seq<Key>)
    requires Ascending(a) && Ascending(b)
    requires forall k :: k in a <==> k in b
    ensures a == b
    decreases |a|
  {
    assert a != [] ==> a[0] in a && a[0] in b;
    assert b != [] ==> b[0] in b && b[0] in a;
    if a != [] {
      FirstIsLeast(a, b);
      forall k ensures k in a[1..] <==> k in b[1..] {
        InTail(a, k);
        InTail(b, k);
      }
      SortedUnique(a[1..], b[1..]);
    }
  }

  lemma FirstIsLeast(a: seq<Key>, b: seq<Key>)
    requires Ascending(a) && Ascending(b) && a != [] && a[0] in b && b != [] && b[0] in a
    ensures a[0] == b[0]
  {
    var i :| 0 <= i < |b| && b[i] == a[0];
    var j :| 0 <= j < |a| && a[j] == b[0];
    if i > 0 && j > 0 {
      LeqAntisymmetric(a[0], b[0]);
    }
  }

  lemma InTail(a: seq<Key>, k: Key)
    requires Ascending(a) && a != []
    ensures k in a[1..] <==> k in a && k != a[0]
  {
    if k in a[1..] {
      var i :| 0 <= i < |a| - 1 && a[1..][i] == k;
      assert a[i + 1] == k;
    }
    if k in a && k != a[0] {
      var i :| 0 <= i < |a| && a[i] == k;
      assert a[1..][i - 1] == k;
    }
  }
}

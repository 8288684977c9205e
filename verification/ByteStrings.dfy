/** Byte strings and their lexicographic order. */
module ByteStrings {

  newtype Byte = x: int | 0 <= x < 256

  type Bytes = seq<Byte>

  predicate Lt(a: Bytes, b: Bytes) {
    b != [] && (a == [] || a[0] < b[0] || (a[0] == b[0] && Lt(a[1..], b[1..])))
  }

  predicate Le(a: Bytes, b: Bytes) { a == b || Lt(a, b) }

  lemma {:induction false} LtIrreflexive(a: Bytes)
    ensures !Lt(a, a)
  {
    if a != [] { LtIrreflexive(a[1..]); }
  }

  lemma {:induction false} LtTotal(a: Bytes, b: Bytes)
    ensures Lt(a, b) || a == b || Lt(b, a)
  {
    if a != [] && b != [] && a[0] == b[0] {
      LtTotal(a[1..], b[1..]);
      assert a == [a[0]] + a[1..] && b == [b[0]] + b[1..];
    }
  }

  lemma {:induction false} LtTransitive(a: Bytes, b: Bytes, c: Bytes)
    requires Lt(a, b) && Lt(b, c)
    ensures Lt(a, c)
  {
    if a != [] && a[0] == b[0] == c[0] { LtTransitive(a[1..], b[1..], c[1..]); }
  }

  lemma LtAsymmetric(a: Bytes, b: Bytes)
    requires Lt(a, b)
    ensures !Lt(b, a)
  {
    if Lt(b, a) {
      LtTransitive(a, b, a);
      LtIrreflexive(a);
    }
  }

  /** A common prefix does not matter to the order. */
  lemma {:induction false} LtPrefix(p: Bytes, a: Bytes, b: Bytes)
    ensures Lt(p + a, p + b) <==> Lt(a, b)
    decreases |p|
  {
    if p == [] {
      assert p + a == a && p + b == b;
    } else {
      assert (p + a)[1..] == p[1..] + a && (p + b)[1..] == p[1..] + b;
      LtPrefix(p[1..], a, b);
    }
  }

  // ---------- sorting a set ----------

  predicate IsLeast(k: Bytes, s: set<Bytes>) { k in s && forall x :: x in s ==> Le(k, x) }

  lemma {:induction false} HasLeast(s: set<Bytes>)
    requires s != {}
    ensures exists k :: IsLeast(k, s)
    decreases |s|
  {
    var x :| x in s;
    if s == {x} {
      assert IsLeast(x, s);
    } else {
      HasLeast(s - {x});
      var k :| IsLeast(k, s - {x});
      LtTotal(k, x);
      if Lt(x, k) {
        forall y | y in s
          ensures Le(x, y)
        {
          assert y != x ==> y in s - {x};
          if y != x && y != k { LtTransitive(x, k, y); }
        }
        assert IsLeast(x, s);
      } else {
        assert IsLeast(k, s);
      }
    }
  }

  lemma LeastUnique(a: Bytes, b: Bytes, s: set<Bytes>)
    requires IsLeast(a, s) && IsLeast(b, s)
    ensures a == b
  {
    if a != b { LtAsymmetric(a, b); }
  }

  function Least(s: set<Bytes>): (k: Bytes)
    requires s != {}
    ensures IsLeast(k, s)
  {
    HasLeast(s);
    assert forall a, b :: IsLeast(a, s) && IsLeast(b, s) ==> a == b by {
      forall a, b | IsLeast(a, s) && IsLeast(b, s)
        ensures a == b
      {
        LeastUnique(a, b, s);
      }
    }
    var k :| k in s && IsLeast(k, s);
    k
  }

  /** The elements of `s` in ascending order. */
  function Sorted(s: set<Bytes>): seq<Bytes>
    decreases |s|
  {
    if s == {} then [] else var k := Least(s); [k] + Sorted(s - {k})
  }

  predicate Ascending(ks: seq<Bytes>) { forall i, j :: 0 <= i < j < |ks| ==> Lt(ks[i], ks[j]) }

  ghost predicate Lists(ks: seq<Bytes>, s: set<Bytes>) {
    Ascending(ks) && forall k :: k in ks <==> k in s
  }

  lemma {:induction false} SortedLists(s: set<Bytes>)
    ensures Lists(Sorted(s), s)
    decreases |s|
  {
    if s != {} {
      var k := Least(s);
      var rest := Sorted(s - {k});
      SortedLists(s - {k});
      forall i, j | 0 <= i < j < |Sorted(s)|
        ensures Lt(Sorted(s)[i], Sorted(s)[j])
      {
        assert rest[j - 1] in s - {k};
        if i > 0 { assert Lt(rest[i - 1], rest[j - 1]); }
      }
    }
  }

  /** There is only one way to list a set in ascending order. */
  lemma {:induction false} SortedUnique(ks: seq<Bytes>, s: set<Bytes>)
    requires Lists(ks, s)
    ensures ks == Sorted(s)
    decreases |ks|
  {
    if ks == [] {
      assert s == {};
    } else {
      var k, rest := ks[0], ks[1..];
      assert k in s;
      var l := Least(s);
      var i :| 0 <= i < |ks| && ks[i] == l;
      if i > 0 {
        LtAsymmetric(k, l);
        LtIrreflexive(k);
        assert false;
      }
      forall x
        ensures x in rest <==> x in s - {k}
      {
        if x in rest {
          var j :| 0 <= j < |rest| && rest[j] == x;
          assert Lt(ks[0], ks[j + 1]);
          LtIrreflexive(k);
        }
      }
      forall a, b | 0 <= a < b < |rest|
        ensures Lt(rest[a], rest[b])
      {
        assert Lt(ks[a + 1], ks[b + 1]);
      }
      SortedUnique(rest, s - {k});
    }
  }
}

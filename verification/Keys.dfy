/** The keys of the store: version, tenant, table and id put one after the other without separators, and the
    interval of keys that start with a given prefix. */
module Keys {
  import opened Wrappers
  import opened ByteStrings

  /** Copies as much of `src` as fits behind position `n`. */
  method CopyTo(d: array<Byte>, n: nat, src: Bytes) returns (copied: nat)
    requires n <= d.Length
    modifies d
    ensures copied == if n + |src| <= d.Length then |src| else d.Length - n
    ensures d[..n + copied] == old(d[..n]) + src[..copied]
    ensures d[n + copied..] == old(d[n + copied..])
  {
    copied := 0;
    while copied < |src| && n + copied < d.Length
      invariant copied <= |src| && n + copied <= d.Length
      invariant forall k :: 0 <= k < copied ==> d[n + k] == src[k]
      invariant forall k :: 0 <= k < d.Length && !(n <= k < n + copied) ==> d[k] == old(d[k])
    {
      d[n + copied] := src[copied];
      copied := copied + 1;
    }
  }

  datatype Key = Key(version: Bytes, tenant: Bytes, table: Bytes, id: Bytes) {
    function Prefix(): Bytes { version + tenant + table }

    function Encoded(): Bytes { Prefix() + id }

    function Len(): nat { |version| + |tenant| + |table| + |id| }

    function LenPrefix(): nat { |version| + |tenant| + |table| }

    /** The copies fill the buffer exactly. */
    method Encode() returns (d: array<Byte>)
      ensures fresh(d) && d[..] == Encoded()
    {
      d := new Byte[Len()];
      var n := 0;
      var c := CopyTo(d, n, version);
      n := n + |version|;
      assert d[..n] == version;
      c := CopyTo(d, n, tenant);
      n := n + |tenant|;
      assert d[..n] == version + tenant;
      c := CopyTo(d, n, table);
      n := n + |table|;
      assert d[..n] == version + tenant + table;
      c := CopyTo(d, n, id);
      assert d[..n + c] == d[..];
    }

    method EncodePrefix() returns (d: array<Byte>)
      ensures fresh(d) && d[..] == Prefix()
    {
      d := new Byte[LenPrefix()];
      var n := 0;
      var c := CopyTo(d, n, version);
      n := n + |version|;
      c := CopyTo(d, n, tenant);
      n := n + |tenant|;
      c := CopyTo(d, n, table);
      assert d[..n + c] == d[..];
    }
  }

  /** For one table the encoding tells ids apart, orders keys as their ids are ordered, and starts with the
      encoded prefix. */
  lemma EncodingKeepsOrder(k: Key, i: Bytes, j: Bytes)
    ensures var a, b := k.(id := i).Encoded(), k.(id := j).Encoded();
            && (a == b <==> i == j)
            && (Lt(a, b) <==> Lt(i, j))
            && k.Prefix() <= a && |a| == k.(id := i).Len() && |k.Prefix()| == k.LenPrefix()
  {
    var p := k.Prefix();
    assert k.(id := i).Encoded() == p + i && k.(id := j).Encoded() == p + j;
    LtPrefix(p, i, j);
    Cancel(p, i, j);
  }

  lemma Cancel(p: Bytes, i: Bytes, j: Bytes)
    ensures p + i == p + j <==> i == j
  {
    assert (p + i)[|p|..] == i && (p + j)[|p|..] == j;
  }

  // ---------- the interval of a prefix ----------

  /** The least byte string above everything that starts with `b`, if there is one. */
  function UpperBound(b: Bytes): Option<Bytes> {
    if b == [] then None
    else if b[|b| - 1] == 255 then UpperBound(b[..|b| - 1])
    else Some(b[..|b| - 1] + [b[|b| - 1] + 1])
  }

  /** Counts the last byte up, carrying over the bytes that wrap to zero and cutting them off. */
  method KeyUpperBound(b: Bytes) returns (r: Option<Bytes>)
    ensures r == UpperBound(b)
  {
    var end := new Byte[|b|];
    var c := CopyTo(end, 0, b);
    var i := end.Length - 1;
    assert b[..i + 1] == b;
    while i >= 0
      invariant -1 <= i < |b|
      invariant forall k :: 0 <= k <= i ==> end[k] == b[k]
      invariant UpperBound(b) == UpperBound(b[..i + 1])
    {
      end[i] := if end[i] == 255 then 0 else end[i] + 1;
      if end[i] != 0 {
        assert end[..i + 1] == b[..i + 1][..i] + [b[i] + 1];
        return Some(end[..i + 1]);
      }
      assert b[..i + 1][..i] == b[..i];
      i := i - 1;
    }
    return None;
  }

  /** The bound, read from the front. */
  lemma {:induction false} UpperBoundCons(c: Byte, b: Bytes)
    ensures UpperBound([c] + b) ==
            match UpperBound(b)
            case Some(u) => Some([c] + u)
            case None => if c == 255 then None else Some([c + 1])
    decreases |b|
  {
    var s := [c] + b;
    if b != [] {
      assert s[..|s| - 1] == [c] + b[..|b| - 1];
      if b[|b| - 1] == 255 {
        UpperBoundCons(c, b[..|b| - 1]);
      } else {
        var l := [b[|b| - 1] + 1];
        assert ([c] + b[..|b| - 1]) + l == [c] + (b[..|b| - 1] + l);
      }
    } else {
      assert s == [c] && s[..0] == [];
      if c != 255 { assert [] + [c + 1] == [c + 1]; }
    }
  }

  ghost predicate InInterval(b: Bytes, k: Bytes) {
    Le(b, k) && (UpperBound(b).Some? ==> Lt(k, UpperBound(b).value))
  }

  /** A key starts with a prefix exactly when it lies in the prefix's interval. */
  lemma {:induction false} PrefixInterval(b: Bytes, k: Bytes)
    ensures b <= k <==> InInterval(b, k)
    decreases |b|
  {
    if b != [] && k != [] {
      var c, b', d, k' := b[0], b[1..], k[0], k[1..];
      assert b == [c] + b' && k == [d] + k';
      UpperBoundCons(c, b');
      PrefixInterval(b', k');
      PrefixCons(c, b', d, k');
      LeCons(c, b', d, k');
      match UpperBound(b') {
        case Some(u) => assert ([c] + u)[1..] == u;
        case None =>
          assert !Lt(k', []);
          if c != 255 { assert [c + 1][1..] == []; }
      }
    }
  }

  lemma PrefixCons(c: Byte, b: Bytes, d: Byte, k: Bytes)
    ensures [c] + b <= [d] + k <==> c == d && b <= k
  {
    var s, t := [c] + b, [d] + k;
    if s <= t { assert s[0] == t[0] && b == s[1..] == t[1..|s|] == k[..|b|]; }
    if c == d && b <= k { assert t[..|s|] == s; }
  }

  lemma LeCons(c: Byte, b: Bytes, d: Byte, k: Bytes)
    ensures Le([c] + b, [d] + k) <==> c < d || (c == d && Le(b, k))
  {
    var s, t := [c] + b, [d] + k;
    assert s[1..] == b && t[1..] == k;
  }
}

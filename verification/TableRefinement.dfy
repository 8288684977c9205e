/** Any number of tables over one flat store behave like separate maps, exactly when no table's prefix is a
    prefix of another's. */
module TableRefinement {
  import opened Wrappers
  import opened ByteStrings
  import opened Keys
  import opened Table

  /** An operation on table number `t`. */
  datatype Op<S> = Add(t: nat, data: S) | Update(t: nat, data: S) | Delete(t: nat, id: Bytes)

  ghost predicate Known<S>(ops: seq<Op<S>>, n: nat) { forall i :: 0 <= i < |ops| ==> ops[i].t < n }

  /** The flat store after one more operation, as the methods of Table leave it. */
  function FlatAfter<S, E>(tables: seq<Schema<S, E>>, m: map<Bytes, Bytes>, op: Op<S>): map<Bytes, Bytes>
    requires op.t < |tables|
  {
    match op
    case Add(t, data) => Written(tables[t], m, data)
    case Update(t, data) => Written(tables[t], m, data)
    case Delete(t, id) => m - {tables[t].At(id)}
  }

  function Flat<S, E>(tables: seq<Schema<S, E>>, ops: seq<Op<S>>): map<Bytes, Bytes>
    requires Known(ops, |tables|)
  {
    if ops == [] then map[] else FlatAfter(tables, Flat(tables, ops[..|ops| - 1]), ops[|ops| - 1])
  }

  /** A table on its own: the live values by id. */
  type Contents<S> = map<Bytes, S>

  function OneAfter<S, E>(t: Schema<S, E>, c: Contents<S>, op: Op<S>): Contents<S> {
    match op
    case Add(_, data) => PutOne(t, c, data)
    case Update(_, data) => PutOne(t, c, data)
    case Delete(_, id) => c - {id}
  }

  function PutOne<S, E>(t: Schema<S, E>, c: Contents<S>, data: S): Contents<S> {
    match t.marshaler.marshal(data)
    case Ok(r) => c[r.0 := data]
    case Err(_) => c
  }

  /** What table number `n` holds: its own operations decide, the others' do not matter. */
  function Holds<S, E>(tables: seq<Schema<S, E>>, ops: seq<Op<S>>, n: nat): Contents<S>
    requires n < |tables|
  {
    if ops == [] then map[]
    else
      var c := Holds(tables, ops[..|ops| - 1], n);
      if ops[|ops| - 1].t == n then OneAfter(tables[n], c, ops[|ops| - 1]) else c
  }

  function InIdOrder<S>(c: Contents<S>, ids: seq<Bytes>): seq<S>
    requires forall id :: id in ids ==> id in c
  {
    if ids == [] then [] else [c[ids[0]]] + InIdOrder(c, ids[1..])
  }

  function AllOf<S>(c: Contents<S>): seq<S> {
    SortedLists(c.Keys);
    InIdOrder(c, Sorted(c.Keys))
  }

  /** Table `n` answers as a map of its own would: Get the live value or nothing, All every live value once,
      in byte order of the ids. */
  ghost predicate Agrees<S, E>(tables: seq<Schema<S, E>>, ops: seq<Op<S>>, n: nat)
    requires n < |tables| && Known(ops, |tables|)
  {
    var m, c := Flat(tables, ops), Holds(tables, ops, n);
    && (forall id :: Lookup(tables[n], m, id) == Ok(if id in c then Some(c[id]) else None))
    && Listed(tables[n], m) == Ok(AllOf(c))
  }

  ghost predicate Separate<S, E>(a: Schema<S, E>, b: Schema<S, E>) {
    !(a.Prefix() <= b.Prefix()) && !(b.Prefix() <= a.Prefix())
  }

  ghost predicate PrefixFree<S, E>(tables: seq<Schema<S, E>>) {
    forall i, j :: 0 <= i < j < |tables| ==> Separate(tables[i], tables[j])
  }

  /** What is written can be read back. */
  ghost predicate Inverse<S(!new), E>(t: Schema<S, E>) {
    forall x :: t.marshaler.marshal(x).Ok? ==> t.marshaler.unmarshal(t.marshaler.marshal(x).value.1) == Ok(x)
  }

  // ---------- keys of separate tables ----------

  /** If two prefixes start the same key, one of them starts the other. */
  lemma Comparable(p: Bytes, q: Bytes, k: Bytes)
    requires p <= k && q <= k
    ensures p <= q || q <= p
  {
  }

  /** A key of table `a` lies in the scan of table `b` for some id exactly when the prefixes are comparable. */
  lemma IsolatedIff<S, E>(a: Schema<S, E>, b: Schema<S, E>)
    ensures Separate(a, b) <==> forall id :: !InInterval(b.Prefix(), a.At(id))
    ensures Separate(a, b) <==> forall id, id' :: a.At(id) != b.At(id')
  {
    if Separate(a, b) {
      forall id
        ensures !InInterval(b.Prefix(), a.At(id))
      {
        PrefixInterval(b.Prefix(), a.At(id));
        if b.Prefix() <= a.At(id) { Comparable(a.Prefix(), b.Prefix(), a.At(id)); }
      }
      forall id, id'
        ensures a.At(id) != b.At(id')
      {
        if a.At(id) == b.At(id') { Comparable(a.Prefix(), b.Prefix(), a.At(id)); }
      }
    } else {
      var id, id' := Meeting(a, b);
    }
  }

  /** Ids under which the keys of the two tables coincide. */
  lemma Meeting<S, E>(a: Schema<S, E>, b: Schema<S, E>) returns (id: Bytes, id': Bytes)
    requires !Separate(a, b)
    ensures a.At(id) == b.At(id') && InInterval(b.Prefix(), a.At(id))
    ensures a.Prefix() <= b.Prefix() ==> id' == []
  {
    if a.Prefix() <= b.Prefix() {
      id, id' := b.Prefix()[|a.Prefix()|..], [];
    } else {
      id, id' := [], a.Prefix()[|b.Prefix()|..];
    }
    assert a.At(id) == b.At(id');
    PrefixInterval(b.Prefix(), a.At(id));
  }

  /** Different tables can share every key: tenant "a" with table "bc", tenant "ab" with table "c". */
  lemma SharedKeys<S, E>(m: Marshaler<S, E>, id: Bytes)
    ensures Schema([98, 99], [97], m).At(id) == Schema([99], [97, 98], m).At(id)
  {
    assert [48] + [97] + [98, 99] == [48] + [97, 98] + [99];
  }

  // ---------- the refinement ----------

  /** The store holds the contents of table `t`, and nothing else under its prefix. */
  ghost predicate Stores<S, E>(t: Schema<S, E>, m: map<Bytes, Bytes>, c: Contents<S>) {
    && (forall id :: id in c <==> t.At(id) in m)
    && (forall id :: id in c ==> t.marshaler.unmarshal(m[t.At(id)]) == Ok(c[id]))
  }

  lemma AtInjective<S, E>(t: Schema<S, E>, i: Bytes, j: Bytes)
    ensures t.At(i) == t.At(j) ==> i == j
  {
    EncodingKeepsOrder(t.GetKey([]), i, j);
  }

  lemma OwnStep<S(!new), E>(t: Schema<S, E>, m: map<Bytes, Bytes>, c: Contents<S>, data: S)
    requires Stores(t, m, c) && Inverse(t)
    ensures Stores(t, Written(t, m, data), PutOne(t, c, data))
  {
    match t.marshaler.marshal(data)
    case Err(_) =>
    case Ok(r) =>
      forall id
        ensures t.At(id) == t.At(r.0) <==> id == r.0
      {
        AtInjective(t, id, r.0);
      }
  }

  lemma OwnDelete<S, E>(t: Schema<S, E>, m: map<Bytes, Bytes>, c: Contents<S>, id: Bytes)
    requires Stores(t, m, c)
    ensures Stores(t, m - {t.At(id)}, c - {id})
  {
    forall i
      ensures t.At(i) == t.At(id) <==> i == id
    {
      AtInjective(t, i, id);
    }
  }

  /** An operation of another, separate table touches none of this table's keys. */
  lemma OtherStep<S, E>(t: Schema<S, E>, u: Schema<S, E>, m: map<Bytes, Bytes>, c: Contents<S>,
                        tables: seq<Schema<S, E>>, op: Op<S>)
    requires Stores(t, m, c) && Separate(t, u) && op.t < |tables| && tables[op.t] == u
    ensures Stores(t, FlatAfter(tables, m, op), c)
  {
    IsolatedIff(t, u);
    hide Separate;
  }

  lemma {:induction false} StoresAll<S(!new), E>(tables: seq<Schema<S, E>>, ops: seq<Op<S>>, n: nat)
    requires n < |tables| && Known(ops, |tables|) && PrefixFree(tables) && Inverse(tables[n])
    ensures Stores(tables[n], Flat(tables, ops), Holds(tables, ops, n))
    decreases |ops|
  {
    if ops != [] {
      var before, op := ops[..|ops| - 1], ops[|ops| - 1];
      StoresAll(tables, before, n);
      var m, c := Flat(tables, before), Holds(tables, before, n);
      if op.t != n {
        assert Separate(tables[n], tables[op.t]) by {
          if op.t < n { assert Separate(tables[op.t], tables[n]); }
        }
        OtherStep(tables[n], tables[op.t], m, c, tables, op);
      } else {
        match op
        case Add(_, data) => OwnStep(tables[n], m, c, data);
        case Update(_, data) => OwnStep(tables[n], m, c, data);
        case Delete(_, id) => OwnDelete(tables[n], m, c, id);
      }
    }
  }

  function Keyed<S, E>(t: Schema<S, E>, ids: seq<Bytes>): seq<Bytes> {
    seq(|ids|, i requires 0 <= i < |ids| => t.At(ids[i]))
  }

  /** The keys under the prefix, in order, are those of the ids in order. */
  lemma OwnInIdOrder<S, E>(t: Schema<S, E>, m: map<Bytes, Bytes>, c: Contents<S>)
    requires Stores(t, m, c)
    ensures Sorted(Own(t, m)) == Keyed(t, Sorted(c.Keys))
  {
    var ids := Sorted(c.Keys);
    var ks := Keyed(t, ids);
    SortedLists(c.Keys);
    forall i, j | 0 <= i < j < |ks|
      ensures Lt(ks[i], ks[j])
    {
      EncodingKeepsOrder(t.GetKey([]), ids[i], ids[j]);
    }
    forall k
      ensures k in ks <==> k in Own(t, m)
    {
      KeyOfTable(t, m, c, ids, k);
    }
    SortedUnique(ks, Own(t, m));
  }

  lemma KeyOfTable<S, E>(t: Schema<S, E>, m: map<Bytes, Bytes>, c: Contents<S>, ids: seq<Bytes>, k: Bytes)
    requires Stores(t, m, c) && forall id :: id in ids <==> id in c
    ensures k in Keyed(t, ids) <==> k in Own(t, m)
  {
    var ks := Keyed(t, ids);
    if k in ks {
      var i :| 0 <= i < |ks| && ks[i] == k;
      assert ids[i] in ids && k == t.At(ids[i]);
    }
    if k in Own(t, m) {
      var id := k[|t.Prefix()|..];
      assert k == t.At(id);
      assert id in ids;
      var i :| 0 <= i < |ids| && ids[i] == id;
      assert ks[i] == k;
    }
  }

  lemma {:induction false} DecodedOwn<S, E>(t: Schema<S, E>, m: map<Bytes, Bytes>, c: Contents<S>, ids: seq<Bytes>)
    requires Stores(t, m, c) && forall id :: id in ids ==> id in c
    requires forall k :: k in Keyed(t, ids) ==> k in m
    ensures Decoded(ValuesAt(m, Keyed(t, ids)), t.marshaler.unmarshal) == Ok(InIdOrder(c, ids))
    decreases |ids|
  {
    if ids != [] {
      var ks := Keyed(t, ids);
      assert ks[0] == t.At(ids[0]) && ks[1..] == Keyed(t, ids[1..]);
      assert ids[0] in c;
      DecodedOwn(t, m, c, ids[1..]);
      assert ValuesAt(m, ks)[1..] == ValuesAt(m, ks[1..]);
    }
  }

  /** After any history over tables with incomparable prefixes, every table is a map of its own. */
  lemma Refines<S(!new), E>(tables: seq<Schema<S, E>>, ops: seq<Op<S>>, n: nat)
    requires n < |tables| && Known(ops, |tables|) && PrefixFree(tables) && Inverse(tables[n])
    ensures Agrees(tables, ops, n)
  {
    StoresAll(tables, ops, n);
    var t, m, c := tables[n], Flat(tables, ops), Holds(tables, ops, n);
    OwnInIdOrder(t, m, c);
    SortedLists(c.Keys);
    SortedLists(Own(t, m));
    DecodedOwn(t, m, c, Sorted(c.Keys));
  }

  // ---------- the latest operation decides ----------

  /** The operation is on table `n` and on this id; a write whose value cannot be marshaled is on none. */
  predicate Concerns<S, E>(t: Schema<S, E>, op: Op<S>, n: nat, id: Bytes) {
    op.t == n &&
    match op
    case Delete(_, id') => id' == id
    case _ => t.marshaler.marshal(op.data).Ok? && t.marshaler.marshal(op.data).value.0 == id
  }

  ghost predicate IsLatest<S, E>(t: Schema<S, E>, ops: seq<Op<S>>, n: nat, id: Bytes, i: nat) {
    i < |ops| && Concerns(t, ops[i], n, id) && forall j :: i < j < |ops| ==> !Concerns(t, ops[j], n, id)
  }

  lemma HoldsStep<S, E>(tables: seq<Schema<S, E>>, ops: seq<Op<S>>, n: nat, id: Bytes)
    requires n < |tables| && ops != []
    ensures var op := ops[|ops| - 1];
            Find(Holds(tables, ops, n), id) ==
            if Concerns(tables[n], op, n, id) then (if op.Delete? then None else Some(op.data))
            else Find(Holds(tables, ops[..|ops| - 1], n), id)
  {
  }

  function Find<S>(c: Contents<S>, id: Bytes): Option<S> { if id in c then Some(c[id]) else None }

  lemma {:induction false} HoldsLatest<S, E>(tables: seq<Schema<S, E>>, ops: seq<Op<S>>, n: nat, id: Bytes)
    requires n < |tables|
    ensures forall i: nat :: IsLatest(tables[n], ops, n, id, i) ==>
              Find(Holds(tables, ops, n), id) == if ops[i].Delete? then None else Some(ops[i].data)
    ensures (forall i :: 0 <= i < |ops| ==> !Concerns(tables[n], ops[i], n, id)) ==>
              Find(Holds(tables, ops, n), id) == None
    decreases |ops|
  {
    if ops != [] {
      hide Concerns, Find, Holds;
      var before := ops[..|ops| - 1];
      HoldsLatest(tables, before, n, id);
      HoldsStep(tables, ops, n, id);
      hide IsLatest;
      forall i: nat | IsLatest(tables[n], ops, n, id, i)
        ensures Find(Holds(tables, ops, n), id) == if ops[i].Delete? then None else Some(ops[i].data)
      {
        LatestBefore(tables[n], ops, n, id, i);
      }
      if forall i :: 0 <= i < |ops| ==> !Concerns(tables[n], ops[i], n, id) {
        assert forall i :: 0 <= i < |before| ==> before[i] == ops[i];
      }
    }
  }

  /** The latest operation is the last one, or was the latest before it. */
  lemma LatestBefore<S, E>(t: Schema<S, E>, ops: seq<Op<S>>, n: nat, id: Bytes, i: nat)
    requires ops != [] && IsLatest(t, ops, n, id, i)
    ensures i < |ops| && (Concerns(t, ops[|ops| - 1], n, id) <==> i == |ops| - 1)
    ensures i < |ops| - 1 ==> IsLatest(t, ops[..|ops| - 1], n, id, i) && ops[..|ops| - 1][i] == ops[i]
  {
    hide Concerns;
  }

  /** Get answers with the value last written under the id, unless that was deleted since or never written. */
  lemma GetLatest<S(!new), E>(tables: seq<Schema<S, E>>, ops: seq<Op<S>>, n: nat, id: Bytes)
    requires n < |tables| && Known(ops, |tables|) && PrefixFree(tables) && Inverse(tables[n])
    ensures forall i: nat :: IsLatest(tables[n], ops, n, id, i) ==>
              Lookup(tables[n], Flat(tables, ops), id) == Ok(if ops[i].Delete? then None else Some(ops[i].data))
    ensures (forall i :: 0 <= i < |ops| ==> !Concerns(tables[n], ops[i], n, id)) ==>
              Lookup(tables[n], Flat(tables, ops), id) == Ok(None)
  {
    hide IsLatest, Concerns, Lookup;
    Refines(tables, ops, n);
    HoldsLatest(tables, ops, n, id);
  }

  lemma {:induction false} InIdOrderIs<S>(c: Contents<S>, ids: seq<Bytes>)
    requires forall id :: id in ids ==> id in c
    ensures |InIdOrder(c, ids)| == |ids| && forall i :: 0 <= i < |ids| ==> InIdOrder(c, ids)[i] == c[ids[i]]
    decreases |ids|
  {
    if ids != [] { InIdOrderIs(c, ids[1..]); }
  }

  /** All lists what Get gives for every id that has a value, once each, in the byte order of the ids. */
  lemma AllLatest<S(!new), E>(tables: seq<Schema<S, E>>, ops: seq<Op<S>>, n: nat) returns (ids: seq<Bytes>)
    requires n < |tables| && Known(ops, |tables|) && PrefixFree(tables) && Inverse(tables[n])
    ensures Ascending(ids)
    ensures forall id :: id in ids <==> Lookup(tables[n], Flat(tables, ops), id) != Ok(None)
    ensures var r := Listed(tables[n], Flat(tables, ops));
            && r.Ok? && |r.value| == |ids|
            && forall i :: 0 <= i < |ids| ==> Lookup(tables[n], Flat(tables, ops), ids[i]) == Ok(Some(r.value[i]))
  {
    hide Lookup, Listed, Flat, Holds;
    Refines(tables, ops, n);
    var c := Holds(tables, ops, n);
    SortedLists(c.Keys);
    ids := Sorted(c.Keys);
    InIdOrderIs(c, ids);
  }

  /** With comparable prefixes one write to the one table shows up in the other. */
  lemma Interferes<S, E>(tables: seq<Schema<S, E>>, i: nat, j: nat, x: S)
    requires i < |tables| && j < |tables| && i != j
    requires tables[i].Prefix() <= tables[j].Prefix() && tables[j].marshaler.marshal(x).Ok?
    ensures Known([Add(j, x)], |tables|) && !Agrees(tables, [Add(j, x)], i)
  {
    var ops := [Add(j, x)];
    var id := tables[j].marshaler.marshal(x).value.0;
    var m, c := Flat(tables, ops), Holds(tables, ops, i);
    assert ops[..0] == [];
    assert Flat(tables, ops[..0]) == map[];
    var key := tables[j].At(id);
    assert m == map[key := tables[j].marshaler.marshal(x).value.1];
    assert Holds(tables, ops[..0], i) == map[];
    assert ops[|ops| - 1].t == j && c == map[];
    var id' := key[|tables[i].Prefix()|..];
    assert tables[i].At(id') == key;
    assert Lookup(tables[i], m, id') != Ok(None);
  }

  /** Separate maps for every table after every history: exactly when no prefix starts another. */
  lemma RefinesIff<S(!new), E>(tables: seq<Schema<S, E>>)
    requires forall i :: 0 <= i < |tables| ==> Inverse(tables[i])
    requires forall i :: 0 <= i < |tables| ==> exists x :: tables[i].marshaler.marshal(x).Ok?
    ensures PrefixFree(tables) <==>
            forall ops: seq<Op<S>>, n: nat :: n < |tables| && Known(ops, |tables|) ==> Agrees(tables, ops, n)
  {
    if PrefixFree(tables) {
      forall ops: seq<Op<S>>, n: nat | n < |tables| && Known(ops, |tables|)
        ensures Agrees(tables, ops, n)
      {
        Refines(tables, ops, n);
      }
    } else {
      var i, j :| 0 <= i < j < |tables| && !Separate(tables[i], tables[j]);
      var a, b := if tables[i].Prefix() <= tables[j].Prefix() then i else j,
                  if tables[i].Prefix() <= tables[j].Prefix() then j else i;
      var x :| tables[b].marshaler.marshal(x).Ok?;
      Interferes(tables, a, b, x);
    }
  }
}

/** Tables over one ordered key-value store. */
module Table {
  import opened Wrappers
  import opened ByteStrings
  import opened Keys

  // ---------- the store ----------

  /** The keys of `m` from `lower` up to, not including, `upper`. */
  function InBounds(m: map<Bytes, Bytes>, lower: Bytes, upper: Option<Bytes>): set<Bytes> {
    set k | k in m && Le(lower, k) && (upper.Some? ==> Lt(k, upper.value))
  }

  function ValuesAt(m: map<Bytes, Bytes>, keys: seq<Bytes>): seq<Bytes>
    requires forall k :: k in keys ==> k in m
  {
    if keys == [] then [] else [m[keys[0]]] + ValuesAt(m, keys[1..])
  }

  /** The values at `keys`, in the order of the keys. */
  function InOrder(m: map<Bytes, Bytes>, keys: set<Bytes>): seq<Bytes>
    requires keys <= m.Keys
  {
    SortedLists(keys);
    ValuesAt(m, Sorted(keys))
  }

  /** Walks over the entries as they were when the iterator was made. */
  class Iter {
    const values: seq<Bytes>
    var at: nat

    constructor (values: seq<Bytes>)
      ensures this.values == values && at == |values|
    {
      this.values, at := values, |values|;
    }

    method First()
      modifies this
      ensures at == 0
    {
      at := 0;
    }

    predicate HasEntry()
      reads this
    {
      at < |values|
    }

    method Next()
      modifies this
      ensures at == old(at) + 1
    {
      at := at + 1;
    }

    function Value(): Bytes
      requires HasEntry()
      reads this
    {
      values[at]
    }
  }

  /** The store.  `fails` says which of its operations fail, by their number; one that fails changes nothing. */
  class Database {
    var m: map<Bytes, Bytes>
    var ops: nat
    const fails: nat -> Option<string>

    constructor (fails: nat -> Option<string>)
      ensures m == map[] && ops == 0 && this.fails == fails
    {
      m, ops := map[], 0;
      this.fails := fails;
    }

    method Set(key: Bytes, value: Bytes) returns (err: Option<string>)
      modifies this
      ensures err == fails(old(ops)) && ops == old(ops) + 1
      ensures m == if err.None? then old(m)[key := value] else old(m)
    {
      err, ops := fails(ops), ops + 1;
      if err.None? { m := m[key := value]; }
    }

    method Delete(key: Bytes) returns (err: Option<string>)
      modifies this
      ensures err == fails(old(ops)) && ops == old(ops) + 1
      ensures m == if err.None? then old(m) - {key} else old(m)
    {
      err, ops := fails(ops), ops + 1;
      if err.None? { m := m - {key}; }
    }

    method Get(key: Bytes) returns (r: Result<Option<Bytes>, string>)
      modifies this
      ensures ops == old(ops) + 1 && m == old(m)
      ensures r == match fails(old(ops))
                   case Some(w) => Err(w)
                   case None => Ok(if key in m then Some(m[key]) else None)
    {
      var err := fails(ops);
      ops := ops + 1;
      if err.Some? { return Err(err.value); }
      r := Ok(if key in m then Some(m[key]) else None);
    }

    method NewIter(lower: Bytes, upper: Option<Bytes>) returns (r: Result<Iter, string>)
      modifies this
      ensures ops == old(ops) + 1 && m == old(m)
      ensures r.Err? <==> fails(old(ops)).Some?
      ensures r.Err? ==> r.error == fails(old(ops)).value
      ensures r.Ok? ==> fresh(r.value) && r.value.values == InOrder(m, InBounds(m, lower, upper))
    {
      var err := fails(ops);
      ops := ops + 1;
      if err.Some? { return Err(err.value); }
      var it := new Iter(InOrder(m, InBounds(m, lower, upper)));
      return Ok(it);
    }

    /** Closes an iterator or a value that was read. */
    method Close() returns (err: Option<string>)
      modifies this
      ensures err == fails(old(ops)) && ops == old(ops) + 1 && m == old(m)
    {
      err, ops := fails(ops), ops + 1;
    }
  }

  // ---------- what the operations of a table mean ----------

  datatype Marshaler<!S, E> = Marshaler(marshal: S -> Result<(Bytes, Bytes), E>, unmarshal: Bytes -> Result<S, E>)

  datatype Schema<!S, E> = Schema(name: Bytes, tenant: Bytes, marshaler: Marshaler<S, E>) {
    function GetKey(id: Bytes): Key { Key([48], tenant, name, id) }

    function Prefix(): Bytes { [48] + tenant + name }

    /** Where the value with this id is kept. */
    function At(id: Bytes): Bytes { Prefix() + id }
  }

  /** Adding and updating are one and the same: both write. */
  function Written<S, E>(t: Schema<S, E>, m: map<Bytes, Bytes>, data: S): map<Bytes, Bytes> {
    match t.marshaler.marshal(data)
    case Ok(r) => m[t.At(r.0) := r.1]
    case Err(_) => m
  }

  function Lookup<S, E>(t: Schema<S, E>, m: map<Bytes, Bytes>, id: Bytes): Result<Option<S>, E> {
    if t.At(id) !in m then Ok(None)
    else
      match t.marshaler.unmarshal(m[t.At(id)])
      case Ok(x) => Ok(Some(x))
      case Err(e) => Err(e)
  }

  /** All values decoded, or the first error. */
  function Decoded<S, E>(values: seq<Bytes>, unmarshal: Bytes -> Result<S, E>): Result<seq<S>, E> {
    if values == [] then Ok([])
    else
      match unmarshal(values[0])
      case Err(e) => Err(e)
      case Ok(x) =>
        match Decoded(values[1..], unmarshal)
        case Err(e) => Err(e)
        case Ok(xs) => Ok([x] + xs)
  }

  /** The keys that start with the prefix of the table. */
  function Own<S, E>(t: Schema<S, E>, m: map<Bytes, Bytes>): set<Bytes> { set k | k in m && t.Prefix() <= k }

  function Listed<S, E>(t: Schema<S, E>, m: map<Bytes, Bytes>): Result<seq<S>, E> {
    Decoded(InOrder(m, Own(t, m)), t.marshaler.unmarshal)
  }

  lemma DecodedNone<S, E>(unmarshal: Bytes -> Result<S, E>)
    ensures Decoded([], unmarshal) == Ok([])
  {
  }

  lemma {:induction false} DecodedAppend<S, E>(xs: seq<Bytes>, y: Bytes, unmarshal: Bytes -> Result<S, E>)
    ensures Decoded(xs + [y], unmarshal) ==
            match Decoded(xs, unmarshal)
            case Err(e) => Err(e)
            case Ok(ds) =>
              match unmarshal(y)
              case Err(e) => Err(e)
              case Ok(d) => Ok(ds + [d])
    decreases |xs|
  {
    if xs == [] {
      assert xs + [y] == [y] && [y][1..] == [];
      assert Decoded([y][1..], unmarshal) == Ok([]) == Decoded(xs, unmarshal);
      if unmarshal(y).Ok? { assert [unmarshal(y).value] + [] == [] + [unmarshal(y).value]; }
    } else {
      assert (xs + [y])[0] == xs[0] && (xs + [y])[1..] == xs[1..] + [y];
      DecodedAppend(xs[1..], y, unmarshal);
      if unmarshal(xs[0]).Ok? && Decoded(xs[1..], unmarshal).Ok? && unmarshal(y).Ok? {
        var x, ds, d := unmarshal(xs[0]).value, Decoded(xs[1..], unmarshal).value, unmarshal(y).value;
        assert ([x] + ds) + [d] == [x] + (ds + [d]);
      }
    }
  }

  /** Once decoding has failed, what follows does not matter. */
  lemma {:induction false} DecodedError<S, E>(xs: seq<Bytes>, ys: seq<Bytes>, unmarshal: Bytes -> Result<S, E>)
    requires Decoded(xs, unmarshal).Err?
    ensures Decoded(xs + ys, unmarshal) == Decoded(xs, unmarshal)
    decreases |xs|
  {
    assert (xs + ys)[0] == xs[0] && (xs + ys)[1..] == xs[1..] + ys;
    if unmarshal(xs[0]).Ok? { DecodedError(xs[1..], ys, unmarshal); }
  }

  /** One more value after those decoded so far. */
  lemma DecodedNext<S, E>(values: seq<Bytes>, k: nat, unmarshal: Bytes -> Result<S, E>)
    requires k < |values| && Decoded(values[..k], unmarshal).Ok?
    ensures match unmarshal(values[k])
            case Err(e) => Decoded(values, unmarshal) == Err(e)
            case Ok(x) => Decoded(values[..k + 1], unmarshal) == Ok(Decoded(values[..k], unmarshal).value + [x])
  {
    hide Decoded;
    assert values[..k + 1] == values[..k] + [values[k]];
    DecodedAppend(values[..k], values[k], unmarshal);
    if unmarshal(values[k]).Err? {
      DecodedError(values[..k + 1], values[k + 1..], unmarshal);
      assert values == values[..k + 1] + values[k + 1..];
    }
  }

  /** What decoding gives: every value decoded, in order, or the error of the first value that has one. */
  lemma {:induction false} DecodedIs<S, E>(values: seq<Bytes>, unmarshal: Bytes -> Result<S, E>)
    ensures match Decoded(values, unmarshal)
            case Ok(xs) => |xs| == |values| && forall i :: 0 <= i < |xs| ==> unmarshal(values[i]) == Ok(xs[i])
            case Err(e) => exists i :: 0 <= i < |values| && unmarshal(values[i]) == Err(e)
                                       && forall j :: 0 <= j < i ==> unmarshal(values[j]).Ok?
    decreases |values|
  {
    if values != [] && unmarshal(values[0]).Ok? {
      DecodedIs(values[1..], unmarshal);
      match Decoded(values[1..], unmarshal)
      case Ok(xs) => assert forall i :: 1 <= i < |values| ==> values[i] == values[1..][i - 1];
      case Err(e) =>
        var i :| 0 <= i < |values| - 1 && unmarshal(values[1..][i]) == Err(e)
                 && forall j :: 0 <= j < i ==> unmarshal(values[1..][j]).Ok?;
        assert unmarshal(values[i + 1]) == Err(e);
        assert forall j :: 1 <= j < i + 1 ==> values[j] == values[1..][j - 1];
    }
  }

  /** The bounds of the scan select exactly the keys with the prefix. */
  lemma ScanBounds<S, E>(t: Schema<S, E>, m: map<Bytes, Bytes>)
    ensures InBounds(m, t.Prefix(), UpperBound(t.Prefix())) == Own(t, m)
  {
    forall k | k in m
      ensures k in InBounds(m, t.Prefix(), UpperBound(t.Prefix())) <==> k in Own(t, m)
    {
      PrefixInterval(t.Prefix(), k);
    }
  }

  // ---------- a table ----------

  datatype Error<E> = Codec(e: E) | Store(what: string)

  /** A result together with what closing reported: the errors are joined. */
  function Joined<X, E>(r: Result<X, E>, closed: Option<string>): Result<X, seq<Error<E>>> {
    var errs := (if r.Err? then [Codec(r.error)] else []) + (if closed.Some? then [Store(closed.value)] else []);
    if errs != [] then Err(errs) else Ok(r.value)
  }

  /** The error of the result comes before that of closing. */
  lemma JoinedIs<X, E>(r: Result<X, E>, closed: Option<string>)
    ensures Joined(r, closed) ==
            match (r, closed)
            case (Ok(x), None) => Ok(x)
            case (Ok(_), Some(w)) => Err([Store(w)])
            case (Err(e), None) => Err([Codec(e)])
            case (Err(e), Some(w)) => Err([Codec(e), Store(w)])
  {
    var none: seq<Error<E>> := [];
    if r.Ok? && closed.Some? { assert none + [Store(closed.value)] == [Store(closed.value)]; }
    if r.Err? && closed.None? { assert [Codec(r.error)] + none == [Codec(r.error)]; }
    if r.Err? && closed.Some? {
      assert [Codec(r.error)] + [Store(closed.value)] == [Codec(r.error), Store(closed.value)];
    }
  }

  class Table<!S, E> {
    const db: Database
    const schema: Schema<S, E>

    constructor (db: Database, schema: Schema<S, E>)
      ensures this.db == db && this.schema == schema
    {
      this.db, this.schema := db, schema;
    }

    method Add(data: S) returns (err: Option<Error<E>>)
      modifies db
      ensures match schema.marshaler.marshal(data)
              case Err(e) => err == Some(Codec(e)) && db.m == old(db.m) && db.ops == old(db.ops)
              case Ok(_) =>
                match db.fails(old(db.ops))
                case Some(w) => err == Some(Store(w)) && db.m == old(db.m)
                case None => err == None && db.m == Written(schema, old(db.m), data)
    {
      var r := schema.marshaler.marshal(data);
      if r.Err? { return Some(Codec(r.error)); }
      var key := schema.GetKey(r.value.0).Encode();
      var failed := db.Set(key[..], r.value.1);
      return if failed.Some? then Some(Store(failed.value)) else None;
    }

    method Update(data: S) returns (err: Option<Error<E>>)
      modifies db
      ensures match schema.marshaler.marshal(data)
              case Err(e) => err == Some(Codec(e)) && db.m == old(db.m) && db.ops == old(db.ops)
              case Ok(_) =>
                match db.fails(old(db.ops))
                case Some(w) => err == Some(Store(w)) && db.m == old(db.m)
                case None => err == None && db.m == Written(schema, old(db.m), data)
    {
      var r := schema.marshaler.marshal(data);
      if r.Err? { return Some(Codec(r.error)); }
      var key := schema.GetKey(r.value.0).Encode();
      var failed := db.Set(key[..], r.value.1);
      return if failed.Some? then Some(Store(failed.value)) else None;
    }

    method Delete(id: Bytes) returns (err: Option<Error<E>>)
      modifies db
      ensures match db.fails(old(db.ops))
              case Some(w) => err == Some(Store(w)) && db.m == old(db.m)
              case None => err == None && db.m == old(db.m) - {schema.At(id)}
    {
      var key := schema.GetKey(id).Encode();
      var failed := db.Delete(key[..]);
      return if failed.Some? then Some(Store(failed.value)) else None;
    }

    /** A missing key is no error; what is read is decoded and closed, and the errors of both are joined. */
    method Get(id: Bytes) returns (r: Result<Option<S>, seq<Error<E>>>)
      modifies db
      ensures db.m == old(db.m)
      ensures r == match db.fails(old(db.ops))
                   case Some(w) => Err([Store(w)])
                   case None =>
                     if schema.At(id) !in db.m then Ok(None)
                     else Joined(Lookup(schema, db.m, id), db.fails(old(db.ops) + 1))
      ensures db.fails(old(db.ops)).None? && schema.At(id) in db.m ==>
                match (schema.marshaler.unmarshal(db.m[schema.At(id)]), db.fails(old(db.ops) + 1))
                case (Ok(x), None) => r == Ok(Some(x))
                case (Ok(_), Some(w)) => r == Err([Store(w)])
                case (Err(e), None) => r == Err([Codec(e)])
                case (Err(e), Some(w)) => r == Err([Codec(e), Store(w)])
    {
      var key := schema.GetKey(id).Encode();
      var value := db.Get(key[..]);
      if value.Err? { return Err([Store(value.error)]); }
      if value.value.None? { return Ok(None); }
      var errs: seq<Error<E>> := [];
      var e := schema.marshaler.unmarshal(value.value.value);
      if e.Err? { errs := errs + [Codec(e.error)]; }
      var closed := db.Close();
      if closed.Some? { errs := errs + [Store(closed.value)]; }
      JoinedIs(Lookup(schema, db.m, id), closed);
      assert errs == (if e.Err? then [Codec(e.error)] else []) + (if closed.Some? then [Store(closed.value)] else []);
      if errs != [] { return Err(errs); }
      return Ok(Some(e.value));
    }

    /** Scans the interval of the table's prefix; the first value that cannot be read ends the scan. */
    method All() returns (r: Result<seq<S>, seq<Error<E>>>)
      modifies db
      ensures db.m == old(db.m)
      ensures r == match db.fails(old(db.ops))
                   case Some(w) => Err([Store(w)])
                   case None => Joined(Listed(schema, db.m), db.fails(old(db.ops) + 1))
      ensures db.fails(old(db.ops)).None? ==>
                match (Listed(schema, db.m), db.fails(old(db.ops) + 1))
                case (Ok(xs), None) => r == Ok(xs)
                case (Ok(_), Some(w)) => r == Err([Store(w)])
                case (Err(e), None) => r == Err([Codec(e)])
                case (Err(e), Some(w)) => r == Err([Codec(e), Store(w)])
    {
      hide Decoded, Own, InBounds, InOrder;
      DecodedNone(schema.marshaler.unmarshal);
      var data: seq<S> := [];
      var errs: seq<Error<E>> := [];
      var prefix := schema.GetKey([]).EncodePrefix();
      var upper := KeyUpperBound(prefix[..]);
      var made := db.NewIter(prefix[..], upper);
      if made.Err? { return Err([Store(made.error)]); }
      var iter := made.value;
      ScanBounds(schema, db.m);
      ghost var values := iter.values;
      ghost var listed := Decoded(values, schema.marshaler.unmarshal);
      iter.First();
      assert values[..0] == [];
      while iter.HasEntry()
        invariant iter.at <= |values| && errs == []
        invariant Decoded(values[..iter.at], schema.marshaler.unmarshal) == Ok(data)
        invariant db.m == old(db.m) && db.ops == old(db.ops) + 1
        decreases |values| - iter.at
      {
        var d := schema.marshaler.unmarshal(iter.Value());
        DecodedNext(values, iter.at, schema.marshaler.unmarshal);
        if d.Err? {
          errs := errs + [Codec(d.error)];
          break;
        }
        data := data + [d.value];
        iter.Next();
      }
      assert errs == [] ==> values[..iter.at] == values;
      assert listed == if errs == [] then Ok(data) else Err(errs[0].e);
      var closed := db.Close();
      if closed.Some? { errs := errs + [Store(closed.value)]; }
      JoinedIs(listed, closed);
      assert errs == (if listed.Err? then [Codec(listed.error)] else [])
                     + (if closed.Some? then [Store(closed.value)] else []);
      if errs != [] { return Err(errs); }
      return Ok(data);
    }
  }
}

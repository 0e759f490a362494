/**
 * Turning the reader's parameter records into plain containers: `unpack`
 * rebuilds a value with every namedtuple replaced by the dictionary of its
 * fields, keeping dictionaries, lists and tuples as they are and unpacking
 * their members.  (The reader's `flatten_dict` is the same function as the
 * utilities' `_flatten_dict` and is modelled once, as `Utils.FlattenDict`.)
 */
module Reader {
  import opened PyValues

  /** `isnamedtupleinstance(x)`: the type of `x` has `tuple` as its only
      base and a tuple of strings as `_fields`.  A namedtuple is its own
      variant of the value type, whose field names are strings by
      construction, so the test is the variant test. */
  predicate IsNamedTupleInstance(v: Value) {
    v.VNamedTuple?
  }

  /** The entries `(fields[i], items[i])`, as far as both go (`zip`). */
  function Zip(fields: seq<string>, items: seq<Value>): (r: seq<Entry>)
    ensures |r| == if |fields| <= |items| then |fields| else |items|
    ensures forall i :: 0 <= i < |r| ==> r[i] == Entry(Str(fields[i]), items[i])
  {
    var n := if |fields| <= |items| then |fields| else |items|;
    seq(n, i requires 0 <= i < n => Entry(Str(fields[i]), items[i]))
  }

  /** `unpack(obj)`.  A dict comprehension inserts its pairs in order into an
      empty dictionary; a namedtuple goes through `_asdict()` first, which
      inserts the pairs of `zip(_fields, self)` the same way. */
  function Unpack(v: Value): (r: Value)
    ensures v.VDict? || v.VNamedTuple? <==> r.VDict?
    ensures v.VList? <==> r.VList?
    ensures v.VTuple? <==> r.VTuple?
    ensures !r.VNamedTuple?
    decreases v
  {
    match v
    case VDict(d) =>
      VDict(PutAll([], seq(|d|, i requires 0 <= i < |d| => Entry(d[i].key, Unpack(d[i].val)))))
    case VList(xs) => VList(seq(|xs|, i requires 0 <= i < |xs| => Unpack(xs[i])))
    case VNamedTuple(fields, xs) =>
      var z := Zip(fields, xs);
      VDict(PutAll([], seq(|z|, i requires 0 <= i < |z| => Entry(z[i].key, Unpack(xs[i])))))
    case VTuple(xs) => VTuple(seq(|xs|, i requires 0 <= i < |xs| => Unpack(xs[i])))
    case _ => v
  }

  /** A value `unpack` produces: no namedtuple anywhere, and every dictionary
      with distinct keys, as every Python dictionary has. */
  predicate Plain(v: Value)
    decreases v
  {
    match v
    case VDict(d) => UniqueKeys(d) && forall i :: 0 <= i < |d| ==> Plain(d[i].val)
    case VList(xs) => forall i :: 0 <= i < |xs| ==> Plain(xs[i])
    case VTuple(xs) => forall i :: 0 <= i < |xs| ==> Plain(xs[i])
    case VNamedTuple(_, _) => false
    case _ => true
  }

  /** Building a dictionary from entries whose values are plain gives a
      plain dictionary. */
  lemma PlainDictionary(m: seq<Entry>)
    requires forall i :: 0 <= i < |m| ==> Plain(m[i].val)
    ensures Plain(VDict(PutAll([], m)))
  {
    UniquePutAll([], m);
    PutAllEntries([], m);
    var d := PutAll([], m);
    forall i | 0 <= i < |d|
      ensures Plain(d[i].val)
    {
      assert d[i] in d;
      var j :| 0 <= j < |m| && m[j] == d[i];
    }
  }

  /** The output of `unpack` holds no namedtuple. */
  lemma {:induction false} UnpackPlain(v: Value)
    ensures Plain(Unpack(v))
    decreases v
  {
    match v
    case VDict(d) =>
      var m := seq(|d|, i requires 0 <= i < |d| => Entry(d[i].key, Unpack(d[i].val)));
      forall i | 0 <= i < |d|
        ensures Plain(m[i].val)
      {
        UnpackPlain(d[i].val);
      }
      PlainDictionary(m);
    case VList(xs) =>
      forall i | 0 <= i < |xs|
        ensures Plain(Unpack(xs[i]))
      {
        UnpackPlain(xs[i]);
      }
    case VNamedTuple(fields, xs) =>
      var z := Zip(fields, xs);
      var m := seq(|z|, i requires 0 <= i < |z| => Entry(z[i].key, Unpack(xs[i])));
      forall i | 0 <= i < |z|
        ensures Plain(m[i].val)
      {
        UnpackPlain(xs[i]);
      }
      PlainDictionary(m);
    case VTuple(xs) =>
      forall i | 0 <= i < |xs|
        ensures Plain(Unpack(xs[i]))
      {
        UnpackPlain(xs[i]);
      }
    case _ =>
  }

  /** Entries with the keys of `a`, in the same places. */
  lemma SameKeys(a: seq<Entry>, b: seq<Entry>)
    requires |a| == |b| && forall i :: 0 <= i < |a| ==> a[i].key == b[i].key
    ensures Keys(a) == Keys(b)
    ensures UniqueKeys(a) ==> UniqueKeys(b)
  {
  }

  /** On a dictionary with distinct keys, the comprehension keeps every key
      in its place and unpacks its value. */
  lemma UnpackDict(d: seq<Entry>)
    requires UniqueKeys(d)
    ensures Unpack(VDict(d)).VDict?
    ensures Keys(Unpack(VDict(d)).entries) == Keys(d)
    ensures forall i :: 0 <= i < |d| ==> Unpack(VDict(d)).entries[i] == Entry(d[i].key, Unpack(d[i].val))
  {
    var m := seq(|d|, i requires 0 <= i < |d| => Entry(d[i].key, Unpack(d[i].val)));
    SameKeys(d, m);
    assert [] + m == m;
    PutAllFresh([], m);
  }

  /** `unpack` leaves plain values as they are. */
  lemma {:induction false} UnpackFixes(v: Value)
    requires Plain(v)
    ensures Unpack(v) == v
    decreases v
  {
    match v
    case VDict(d) =>
      forall i | 0 <= i < |d|
        ensures Unpack(d[i].val) == d[i].val
      {
        UnpackFixes(d[i].val);
      }
      UnpackDict(d);
      assert Unpack(v).entries == d;
    case VList(xs) =>
      forall i | 0 <= i < |xs|
        ensures Unpack(xs[i]) == xs[i]
      {
        UnpackFixes(xs[i]);
      }
      assert Unpack(v).items == xs;
    case VTuple(xs) =>
      forall i | 0 <= i < |xs|
        ensures Unpack(xs[i]) == xs[i]
      {
        UnpackFixes(xs[i]);
      }
      assert Unpack(v).items == xs;
    case _ =>
  }

  /** Unpacking twice is unpacking once. */
  lemma UnpackIdempotent(v: Value)
    ensures Unpack(Unpack(v)) == Unpack(v)
  {
    UnpackPlain(v);
    UnpackFixes(Unpack(v));
  }

  /** A list or a plain tuple keeps its kind and its length, each member
      unpacked. */
  lemma UnpackSequence(v: Value)
    requires v.VList? || v.VTuple?
    ensures Unpack(v).VList? == v.VList? && Unpack(v).VTuple? == v.VTuple?
    ensures |Unpack(v).items| == |v.items|
    ensures forall i :: 0 <= i < |v.items| ==> Unpack(v).items[i] == Unpack(v.items[i])
  {
  }

  /** A namedtuple is a tuple too, but it is tested first: it becomes the
      dictionary from its field names, in order, to its unpacked members. */
  lemma UnpackNamedTuple(fields: seq<string>, xs: seq<Value>)
    requires |fields| == |xs|
    requires forall i, j :: 0 <= i < j < |fields| ==> fields[i] != fields[j]
    ensures Unpack(VNamedTuple(fields, xs)).VDict?
    ensures
      var r := Unpack(VNamedTuple(fields, xs)).entries;
      && |r| == |fields|
      && forall i :: 0 <= i < |fields| ==> r[i] == Entry(Str(fields[i]), Unpack(xs[i]))
  {
    var z := Zip(fields, xs);
    var m := seq(|z|, i requires 0 <= i < |z| => Entry(z[i].key, Unpack(xs[i])));
    assert [] + m == m;
    PutAllFresh([], m);
  }

  /** Values other than containers are returned unchanged. */
  lemma UnpackScalar(v: Value)
    requires !v.VDict? && !v.VList? && !v.VTuple? && !IsNamedTupleInstance(v)
    ensures Unpack(v) == v
  {
  }
}

/**
 * The nested key-value trees the header code works on: the raw Siemens
 * parameter tree handed over by the raw-data reader, and the header document
 * that is built from it.  A value is one of the Python values that occur in
 * these trees (None, int, float, str, list, tuple, namedtuple, dict).
 *
 * Dictionaries are ordered association lists, as Python dictionaries keep
 * insertion order.  `Put` is the assignment `d[k] = v` and `PutAll` a loop of
 * such assignments (also what a dict comprehension does).
 */
module PyValues {

  /** Dictionary keys: strings, and integers (the per-slice array `asSlice`
      is keyed by 0). */
  datatype Key = Str(s: string) | Int(i: int)

  datatype Value =
    | VNone
    | VInt(i: int)
    | VReal(r: real)
    | VStr(s: string)
    | VList(items: seq<Value>)
    | VTuple(items: seq<Value>)
    | VNamedTuple(fields: seq<string>, items: seq<Value>)
    | VDict(entries: seq<Entry>)

  datatype Entry = Entry(key: Key, val: Value)

  datatype Option<+T> = None | Some(value: T)

  /** The Python exceptions the modelled code can raise. */
  datatype PyError =
    | KeyError(key: Key)
    | IndexError
    | TypeError
    | AttributeError
    | ZeroDivisionError

  /** A computation that either produces a value or raises. */
  datatype Result<+T> = Ok(value: T) | Err(error: PyError) {
    predicate IsFailure() {
      Err?
    }

    function PropagateFailure<U>(): Result<U>
      requires Err?
    {
      Err(error)
    }

    function Extract(): T
      requires Ok?
    {
      value
    }
  }

  // ---------------------------------------------------------------------
  // Ordered dictionaries
  // ---------------------------------------------------------------------

  /** The keys of a dictionary, in insertion order. */
  function Keys(d: seq<Entry>): (ks: seq<Key>)
    ensures |ks| == |d|
    ensures forall i :: 0 <= i < |d| ==> ks[i] == d[i].key
  {
    seq(|d|, i requires 0 <= i < |d| => d[i].key)
  }

  /** Every Python dictionary has pairwise distinct keys. */
  predicate UniqueKeys(d: seq<Entry>) {
    forall i, j :: 0 <= i < j < |d| ==> d[i].key != d[j].key
  }

  /** The value stored under `k`, if any. */
  function Lookup(d: seq<Entry>, k: Key): Option<Value> {
    if d == [] then None
    else if d[0].key == k then Some(d[0].val)
    else Lookup(d[1..], k)
  }

  /** The value of the last entry of `m` with key `k`: the one that wins when
      the entries are inserted in order. */
  function Latest(m: seq<Entry>, k: Key): Option<Value> {
    if m == [] then None
    else if m[|m| - 1].key == k then Some(m[|m| - 1].val)
    else Latest(m[..|m| - 1], k)
  }

  /** `d[k] = v`: a present key keeps its position and takes the new value,
      a new key is appended at the end. */
  function Put(d: seq<Entry>, k: Key, v: Value): seq<Entry> {
    if d == [] then [Entry(k, v)]
    else if d[0].key == k then [Entry(k, v)] + d[1..]
    else [d[0]] + Put(d[1..], k, v)
  }

  /** Inserting the entries of `m` into `acc`, first to last. */
  function PutAll(acc: seq<Entry>, m: seq<Entry>): seq<Entry> {
    if m == [] then acc
    else Put(PutAll(acc, m[..|m| - 1]), m[|m| - 1].key, m[|m| - 1].val)
  }

  // ---------------------------------------------------------------------
  // What lookups see
  // ---------------------------------------------------------------------

  lemma KeysCons(d: seq<Entry>)
    requires d != []
    ensures Keys(d) == [d[0].key] + Keys(d[1..])
  {
  }

  lemma KeysSnoc(m: seq<Entry>)
    requires m != []
    ensures Keys(m) == Keys(m[..|m| - 1]) + [m[|m| - 1].key]
  {
  }

  /** A lookup succeeds exactly for the keys of the dictionary. */
  lemma {:induction false} LookupSome(d: seq<Entry>, k: Key)
    ensures Lookup(d, k).Some? <==> k in Keys(d)
  {
    if d != [] {
      KeysCons(d);
      LookupSome(d[1..], k);
    }
  }

  /** The entry at `i` is found when no earlier entry has its key. */
  lemma {:induction false} LookupAt(d: seq<Entry>, i: nat)
    requires i < |d| && forall j :: 0 <= j < i ==> d[j].key != d[i].key
    ensures Lookup(d, d[i].key) == Some(d[i].val)
  {
    if i > 0 {
      assert d[0].key != d[i].key;
      assert d[1..][i - 1] == d[i];
      LookupAt(d[1..], i - 1);
    }
  }

  /** A key no entry has is not found. */
  lemma {:induction false} LookupMissing(d: seq<Entry>, k: Key)
    requires forall j :: 0 <= j < |d| ==> d[j].key != k
    ensures Lookup(d, k) == None
  {
    if d != [] {
      assert forall j :: 0 <= j < |d[1..]| ==> d[1..][j] == d[j + 1];
      LookupMissing(d[1..], k);
    }
  }

  /** `Latest` finds a value exactly for the keys that occur. */
  lemma {:induction false} LatestSome(m: seq<Entry>, k: Key)
    ensures Latest(m, k).Some? <==> k in Keys(m)
  {
    if m != [] {
      KeysSnoc(m);
      LatestSome(m[..|m| - 1], k);
    }
  }

  /** After `d[k] = v`, `k` maps to `v` and every other key to what it
      mapped to before. */
  lemma {:induction false} LookupPut(d: seq<Entry>, k: Key, v: Value, k': Key)
    ensures Lookup(Put(d, k, v), k') == if k' == k then Some(v) else Lookup(d, k')
  {
    if d != [] && d[0].key != k {
      LookupPut(d[1..], k, v, k');
    }
  }

  /** `d[k] = v` keeps the key order and appends a new key at the end. */
  lemma {:induction false} KeysPut(d: seq<Entry>, k: Key, v: Value)
    ensures Keys(Put(d, k, v)) == if k in Keys(d) then Keys(d) else Keys(d) + [k]
  {
    if d != [] {
      if d[0].key != k {
        KeysPut(d[1..], k, v);
      }
      KeysPutStep(d, k, v);
    }
  }

  lemma KeysPutStep(d: seq<Entry>, k: Key, v: Value)
    requires d != []
    requires d[0].key != k ==>
      Keys(Put(d[1..], k, v)) == if k in Keys(d[1..]) then Keys(d[1..]) else Keys(d[1..]) + [k]
    ensures Keys(Put(d, k, v)) == if k in Keys(d) then Keys(d) else Keys(d) + [k]
  {
    KeysCons(d);
    KeysCons(Put(d, k, v));
    if d[0].key == k {
      assert Put(d, k, v)[1..] == d[1..];
    } else {
      assert Put(d, k, v)[1..] == Put(d[1..], k, v);
    }
  }

  /** `d[k] = v` keeps the keys of a dictionary distinct. */
  lemma {:induction false} UniquePut(d: seq<Entry>, k: Key, v: Value)
    requires UniqueKeys(d)
    ensures UniqueKeys(Put(d, k, v))
  {
    if d != [] && d[0].key != k {
      UniquePut(d[1..], k, v);
      KeysPut(d[1..], k, v);
      UniquePutStep(d, k, v);
    }
  }

  lemma UniquePutStep(d: seq<Entry>, k: Key, v: Value)
    requires UniqueKeys(d) && d != [] && d[0].key != k
    requires UniqueKeys(Put(d[1..], k, v))
    requires Keys(Put(d[1..], k, v)) == if k in Keys(d[1..]) then Keys(d[1..]) else Keys(d[1..]) + [k]
    ensures UniqueKeys(Put(d, k, v))
  {
    KeysCons(d);
    var r := Put(d, k, v);
    var rest := Put(d[1..], k, v);
    assert r == [d[0]] + rest;
    forall j | 0 < j < |r| ensures r[0].key != r[j].key {
      assert r[j] == rest[j - 1];
      assert r[j].key == Keys(rest)[j - 1];
    }
  }


  /** After inserting the entries of `m`, a key of `m` maps to its last value
      in `m`; any other key maps to what it mapped to in `acc`. */
  lemma {:induction false} LookupPutAll(acc: seq<Entry>, m: seq<Entry>, k: Key)
    ensures Lookup(PutAll(acc, m), k) == if k in Keys(m) then Latest(m, k) else Lookup(acc, k)
  {
    LatestSome(m, k);
    if m != [] {
      var n := |m| - 1;
      KeysSnoc(m);
      LookupPut(PutAll(acc, m[..n]), m[n].key, m[n].val, k);
      LookupPutAll(acc, m[..n], k);
    }
  }

  /** Inserting into a dictionary with distinct keys keeps them distinct. */
  lemma {:induction false} UniquePutAll(acc: seq<Entry>, m: seq<Entry>)
    requires UniqueKeys(acc)
    ensures UniqueKeys(PutAll(acc, m))
  {
    if m != [] {
      UniquePutAll(acc, m[..|m| - 1]);
      UniquePut(PutAll(acc, m[..|m| - 1]), m[|m| - 1].key, m[|m| - 1].val);
    }
  }

  /** Every entry after `d[k] = v` is the new one or an old one. */
  lemma {:induction false} PutEntries(d: seq<Entry>, k: Key, v: Value)
    ensures forall e :: e in Put(d, k, v) ==> e == Entry(k, v) || e in d
  {
    if d != [] && d[0].key != k {
      PutEntries(d[1..], k, v);
      assert forall e :: e in d[1..] ==> e in d;
    }
  }

  /** Every entry after inserting `m` into `acc` comes from `acc` or `m`. */
  lemma {:induction false} PutAllEntries(acc: seq<Entry>, m: seq<Entry>)
    ensures forall e :: e in PutAll(acc, m) ==> e in acc || e in m
  {
    if m != [] {
      var n := |m| - 1;
      PutAllEntries(acc, m[..n]);
      PutEntries(PutAll(acc, m[..n]), m[n].key, m[n].val);
      assert forall e :: e in m[..n] ==> e in m;
    }
  }

  // ---------------------------------------------------------------------
  // Lemmas about insertion
  // ---------------------------------------------------------------------

  /** A new key is appended. */
  lemma {:induction false} PutNew(d: seq<Entry>, k: Key, v: Value)
    requires k !in Keys(d)
    ensures Put(d, k, v) == d + [Entry(k, v)]
  {
    if d != [] {
      KeysCons(d);
      PutNew(d[1..], k, v);
      PutNewStep(d, k, v);
    }
  }

  lemma PutNewStep(d: seq<Entry>, k: Key, v: Value)
    requires d != [] && d[0].key != k && Put(d[1..], k, v) == d[1..] + [Entry(k, v)]
    ensures Put(d, k, v) == d + [Entry(k, v)]
  {
    assert [d[0]] + (d[1..] + [Entry(k, v)]) == d + [Entry(k, v)];
  }

  /** A second assignment to the same key overrides the first. */
  lemma {:induction false} PutPut(d: seq<Entry>, k: Key, v1: Value, v2: Value)
    ensures Put(Put(d, k, v1), k, v2) == Put(d, k, v2)
  {
    if d != [] && d[0].key != k {
      PutPut(d[1..], k, v1, v2);
    }
  }

  /** Assignments to two different keys commute once the first key is present. */
  lemma {:induction false} PutCommute(d: seq<Entry>, k1: Key, v1: Value, k2: Key, v2: Value)
    requires k1 in Keys(d) && k1 != k2
    ensures Put(Put(d, k1, v1), k2, v2) == Put(Put(d, k2, v2), k1, v1)
  {
    KeysCons(d);
    if d[0].key != k1 && d[0].key != k2 {
      PutCommute(d[1..], k1, v1, k2, v2);
    }
    PutCommuteStep(d, k1, v1, k2, v2);
  }

  lemma PutCommuteStep(d: seq<Entry>, k1: Key, v1: Value, k2: Key, v2: Value)
    requires d != [] && k1 != k2
    requires d[0].key != k1 && d[0].key != k2 ==>
      Put(Put(d[1..], k1, v1), k2, v2) == Put(Put(d[1..], k2, v2), k1, v1)
    ensures Put(Put(d, k1, v1), k2, v2) == Put(Put(d, k2, v2), k1, v1)
  {
    var x, rest := d[0], d[1..];
    assert d == [x] + rest;
    if x.key == k1 {
      assert Put(d, k1, v1) == [Entry(k1, v1)] + rest;
      assert Put(Put(d, k2, v2), k1, v1) == [Entry(k1, v1)] + Put(rest, k2, v2);
    } else if x.key == k2 {
      assert Put(d, k2, v2) == [Entry(k2, v2)] + rest;
      assert Put(Put(d, k1, v1), k2, v2) == [Entry(k2, v2)] + Put(rest, k1, v1);
    } else {
      assert Put(Put(d, k1, v1), k2, v2) == [x] + Put(Put(rest, k1, v1), k2, v2);
      assert Put(Put(d, k2, v2), k1, v1) == [x] + Put(Put(rest, k2, v2), k1, v1);
    }
  }

  /** Assigning a key that already occurs in a prefix leaves the rest alone. */
  lemma {:induction false} PutInPrefix(c: seq<Entry>, t: seq<Entry>, k: Key, v: Value)
    requires k in Keys(c)
    ensures Put(c + t, k, v) == Put(c, k, v) + t
  {
    KeysCons(c);
    if c[0].key != k {
      PutInPrefix(c[1..], t, k, v);
    }
    PutInPrefixStep(c, t, k, v);
  }

  lemma PutInPrefixStep(c: seq<Entry>, t: seq<Entry>, k: Key, v: Value)
    requires c != []
    requires c[0].key != k ==> Put(c[1..] + t, k, v) == Put(c[1..], k, v) + t
    ensures Put(c + t, k, v) == Put(c, k, v) + t
  {
    var ct := c + t;
    assert ct[0] == c[0] && ct[1..] == c[1..] + t;
    if c[0].key == k {
      assert Put(ct, k, v) == [Entry(k, v)] + (c[1..] + t);
      assert Put(c, k, v) == [Entry(k, v)] + c[1..];
    } else {
      assert Put(ct, k, v) == [c[0]] + (Put(c[1..], k, v) + t);
      assert Put(c, k, v) == [c[0]] + Put(c[1..], k, v);
    }
  }

  /** The last entry of a dictionary with distinct keys is replaced in place. */
  lemma {:induction false} PutLast(c: seq<Entry>, x: Entry, v: Value)
    requires x.key !in Keys(c)
    ensures Put(c + [x], x.key, v) == c + [Entry(x.key, v)]
  {
    if c != [] {
      KeysCons(c);
      var t := c[1..] + [x];
      assert c + [x] == [c[0]] + t;
      assert (c + [x])[0].key != x.key;
      assert Put(c + [x], x.key, v) == [c[0]] + Put(t, x.key, v);
      PutLast(c[1..], x, v);
      assert [c[0]] + (c[1..] + [Entry(x.key, v)]) == c + [Entry(x.key, v)];
    }
  }

  lemma UniquePrefix(c: seq<Entry>, n: nat)
    requires UniqueKeys(c) && n <= |c|
    ensures UniqueKeys(c[..n])
  {
  }

  /** Inserting the entries of a dictionary with distinct keys that are new
      to `acc` appends them in order; in particular `PutAll([], c) == c`. */
  lemma {:induction false} PutAllFresh(acc: seq<Entry>, c: seq<Entry>)
    requires UniqueKeys(acc + c)
    ensures PutAll(acc, c) == acc + c
  {
    if c != [] {
      var n := |c| - 1;
      assert (acc + c)[..|acc| + n] == acc + c[..n];
      UniquePrefix(acc + c, |acc| + n);
      PutAllFresh(acc, c[..n]);
      assert c[n].key !in Keys(acc + c[..n]) by {
        forall i | 0 <= i < |acc + c[..n]|
          ensures (acc + c[..n])[i].key != c[n].key
        {
          assert (acc + c[..n])[i] == (acc + c)[i];
          assert (acc + c)[|acc| + n] == c[n];
        }
      }
      PutNew(acc + c[..n], c[n].key, c[n].val);
      assert acc + c[..n] + [c[n]] == acc + c;
    }
  }

  /** The last entry of a dictionary with distinct keys: its key is not
      among the keys before it. */
  lemma UniqueLast(c: seq<Entry>)
    requires UniqueKeys(c) && c != []
    ensures c == c[..|c| - 1] + [c[|c| - 1]]
    ensures Keys(c) == Keys(c[..|c| - 1]) + [c[|c| - 1].key]
    ensures UniqueKeys(c[..|c| - 1])
    ensures c[|c| - 1].key !in Keys(c[..|c| - 1])
  {
    var n := |c| - 1;
    KeysSnoc(c);
    UniquePrefix(c, n);
    forall i | 0 <= i < n ensures c[..n][i].key != c[n].key {
      assert c[..n][i] == c[i];
    }
  }

  /** Inserting a dictionary updated at one key equals inserting the
      dictionary and then updating that key. */
  lemma {:induction false} PutAllPut(acc: seq<Entry>, c: seq<Entry>, k: Key, v: Value)
    requires UniqueKeys(c)
    ensures PutAll(acc, Put(c, k, v)) == Put(PutAll(acc, c), k, v)
    decreases |c|, 1
  {
    if k !in Keys(c) {
      PutNew(c, k, v);
      assert (c + [Entry(k, v)])[..|c|] == c;
    } else {
      UniqueLast(c);
      var n := |c| - 1;
      var c', x := c[..n], c[n];
      if x.key == k {
        PutLast(c', x, v);
        assert (c' + [Entry(k, v)])[..n] == c';
        PutPut(PutAll(acc, c'), k, x.val, v);
      } else {
        PutAllPutEarlier(acc, c', x, k, v);
      }
    }
  }

  /** `PutAllPut` when the updated key is not the last one. */
  lemma {:induction false} PutAllPutEarlier(acc: seq<Entry>, c': seq<Entry>, x: Entry, k: Key, v: Value)
    requires UniqueKeys(c') && x.key !in Keys(c') && k in Keys(c') && x.key != k
    ensures PutAll(acc, Put(c' + [x], k, v)) == Put(PutAll(acc, c' + [x]), k, v)
    decreases |c'| + 1, 0
  {
    PutInPrefix(c', [x], k, v);
    var c2 := Put(c', k, v);
    assert (c2 + [x])[..|c2|] == c2;
    assert (c' + [x])[..|c'|] == c';
    PutAllPut(acc, c', k, v);
    LatestSome(c', k);
    LookupPutAll(acc, c', k);
    LookupSome(PutAll(acc, c'), k);
    PutCommute(PutAll(acc, c'), k, v, x.key, x.val);
  }

  /** Inserting the entries of `PutAll([], m)` has the same effect as
      inserting the entries of `m` themselves. */
  lemma {:induction false} PutAllThroughDict(acc: seq<Entry>, m: seq<Entry>)
    ensures PutAll(acc, PutAll([], m)) == PutAll(acc, m)
  {
    if m != [] {
      var n := |m| - 1;
      PutAllThroughDict(acc, m[..n]);
      UniquePutAll([], m[..n]);
      PutAllPut(acc, PutAll([], m[..n]), m[n].key, m[n].val);
    }
  }

  /** Inserting `m1 + m2` is inserting `m1` and then `m2`. */
  lemma {:induction false} PutAllAppend(acc: seq<Entry>, m1: seq<Entry>, m2: seq<Entry>)
    ensures PutAll(acc, m1 + m2) == PutAll(PutAll(acc, m1), m2)
  {
    if m2 != [] {
      var n := |m2| - 1;
      assert (m1 + m2)[..|m1| + n] == m1 + m2[..n];
      assert (m1 + m2)[|m1| + n] == m2[n];
      PutAllAppend(acc, m1, m2[..n]);
      calc {
        PutAll(acc, m1 + m2);
        Put(PutAll(acc, m1 + m2[..n]), m2[n].key, m2[n].val);
        Put(PutAll(PutAll(acc, m1), m2[..n]), m2[n].key, m2[n].val);
        PutAll(PutAll(acc, m1), m2);
      }
    } else {
      assert m1 + m2 == m1;
    }
  }
}

/**
 * The header utilities: flattening a nested dictionary into one level whose
 * keys are the delimiter-joined paths of the leaves, and the expected shape
 * of the raw data, computed from a header after storing the channel count
 * and the readout length into the header's own dimensions.
 */
module Utils {
  import opened PyValues
  import opened PyOps
  import SimpleRd

  // ---------------------------------------------------------------------
  // Flattening: the loop, as a function of the entries visited so far
  // ---------------------------------------------------------------------

  /** No entry holds a dictionary. */
  predicate NoDicts(d: seq<Entry>) {
    forall e :: e in d ==> !e.val.VDict?
  }

  /** `''.join([key, delim, k])`: only strings can be joined. */
  function JoinKey(key: Key, delim: string, k: Key): Result<Key> {
    if key.Str? && k.Str? then Ok(Str(key.s + delim + k.s)) else Err(TypeError)
  }

  /** The inner loop: each entry of the flattened child is stored under its
      key joined to the parent key. */
  function InsertPrefixed(acc: seq<Entry>, key: Key, delim: string, child: seq<Entry>): Result<seq<Entry>>
    decreases |child|
  {
    if child == [] then Ok(acc)
    else
      match JoinKey(key, delim, child[0].key)
      case Err(e) => Err(e)
      case Ok(k) => InsertPrefixed(Put(acc, k, child[0].val), key, delim, child[1..])
  }

  /** The inner loop keeps the dictionary free of nested dictionaries and its
      keys distinct. */
  lemma {:induction false} InsertPrefixedKeeps(acc: seq<Entry>, key: Key, delim: string, child: seq<Entry>)
    requires NoDicts(acc) && UniqueKeys(acc) && NoDicts(child)
    ensures InsertPrefixed(acc, key, delim, child).Ok? ==>
      NoDicts(InsertPrefixed(acc, key, delim, child).value) && UniqueKeys(InsertPrefixed(acc, key, delim, child).value)
    ensures InsertPrefixed(acc, key, delim, child).Err? ==> InsertPrefixed(acc, key, delim, child) == Err(TypeError)
    decreases |child|
  {
    if child != [] && JoinKey(key, delim, child[0].key).Ok? {
      var k := JoinKey(key, delim, child[0].key).value;
      assert child[0] in child;
      PutEntries(acc, k, child[0].val);
      UniquePut(acc, k, child[0].val);
      assert forall e :: e in child[1..] ==> e in child;
      InsertPrefixedKeeps(Put(acc, k, child[0].val), key, delim, child[1..]);
    }
  }

  /** The dictionary `_flatten_dict` has built after visiting the first `n`
      entries of `es`: a plain value is stored under its key, a dictionary is
      flattened and its entries are stored under joined keys. */
  function FlattenUpTo(es: seq<Entry>, n: nat, delim: string): (r: Result<seq<Entry>>)
    requires n <= |es|
    ensures r.Ok? ==> NoDicts(r.value) && UniqueKeys(r.value)
    ensures r.Err? ==> r == Err(TypeError)
    decreases VDict(es), n
  {
    if n == 0 then Ok([])
    else
      match FlattenUpTo(es, n - 1, delim)
      case Err(e) => Err(e)
      case Ok(acc) =>
        var e := es[n - 1];
        if !e.val.VDict? then
          PutEntries(acc, e.key, e.val);
          UniquePut(acc, e.key, e.val);
          Ok(Put(acc, e.key, e.val))
        else
          match FlattenUpTo(e.val.entries, |e.val.entries|, delim)
          case Err(err) => Err(err)
          case Ok(child) =>
            InsertPrefixedKeeps(acc, e.key, delim, child);
            InsertPrefixed(acc, e.key, delim, child)
  }

  /** `_flatten_dict(obj, delim)`; only a dictionary has `items`. */
  function Flatten(obj: Value, delim: string): (r: Result<Value>)
    ensures r.Ok? <==> obj.VDict? && FlattenUpTo(obj.entries, |obj.entries|, delim).Ok?
    ensures r.Ok? ==> r.value.VDict? && NoDicts(r.value.entries) && UniqueKeys(r.value.entries)
  {
    if !obj.VDict? then Err(AttributeError)
    else
      match FlattenUpTo(obj.entries, |obj.entries|, delim)
      case Err(e) => Err(e)
      case Ok(flat) => Ok(VDict(flat))
  }

  /** Once the loop has failed, the whole call fails with that error. */
  lemma {:induction false} FlattenFailurePersists(es: seq<Entry>, i: nat, n: nat, delim: string)
    requires i <= n <= |es| && FlattenUpTo(es, i, delim).Err?
    ensures FlattenUpTo(es, n, delim) == FlattenUpTo(es, i, delim)
    decreases n
  {
    if n > i {
      FlattenFailurePersists(es, i, n - 1, delim);
    }
  }

  /** The inner loop of `_flatten_dict`: stores each entry of the flattened
      child under its key joined to the parent key. */
  method StorePrefixed(flatten: seq<Entry>, key: Key, delim: string, items: seq<Entry>)
    returns (r: Result<seq<Entry>>)
    ensures r == InsertPrefixed(flatten, key, delim, items)
  {
    var acc := flatten;
    var j := 0;
    while j < |items|
      invariant 0 <= j <= |items|
      invariant InsertPrefixed(flatten, key, delim, items) == InsertPrefixed(acc, key, delim, items[j..])
    {
      assert items[j..][0] == items[j] && items[j..][1..] == items[j + 1..];
      if !key.Str? || !items[j].key.Str? {
        return Err(TypeError);
      }
      acc := Put(acc, Str(key.s + delim + items[j].key.s), items[j].val);
      j := j + 1;
    }
    return Ok(acc);
  }

  /** `_flatten_dict`: a loop over the items of `obj` that fills the
      dictionary `flatten`, recursing into dictionary values. */
  method FlattenDict(obj: Value, delim: string) returns (r: Result<Value>)
    ensures r == Flatten(obj, delim)
    decreases obj
  {
    if !obj.VDict? {
      return Err(AttributeError);
    }
    var es := obj.entries;
    var flatten: seq<Entry> := [];
    var i := 0;
    while i < |es|
      invariant 0 <= i <= |es|
      invariant FlattenUpTo(es, i, delim) == Ok(flatten)
    {
      var key, value := es[i].key, es[i].val;
      if !value.VDict? {
        flatten := Put(flatten, key, value);
      } else {
        assert es[i] in es;
        var child := FlattenDict(value, delim);
        if child.Err? {
          FlattenFailurePersists(es, i + 1, |es|, delim);
          return Err(child.error);
        }
        var stored := StorePrefixed(flatten, key, delim, child.value.entries);
        if stored.Err? {
          FlattenFailurePersists(es, i + 1, |es|, delim);
          return Err(stored.error);
        }
        flatten := stored.value;
      }
      i := i + 1;
    }
    return Ok(VDict(flatten));
  }

  // ---------------------------------------------------------------------
  // Flattening: the leaves and their joined keys
  // ---------------------------------------------------------------------

  /** A value that is not a dictionary, at the path of keys that leads to it. */
  datatype Leaf = Leaf(path: seq<Key>, val: Value)

  /** Every leaf has a path of at least one key. */
  predicate Rooted(ls: seq<Leaf>) {
    forall i :: 0 <= i < |ls| ==> |ls[i].path| >= 1
  }

  /** The leaves below `key`: each path gets `key` in front. */
  function Under(key: Key, ls: seq<Leaf>): (r: seq<Leaf>)
    ensures |r| == |ls|
    ensures forall i :: 0 <= i < |ls| ==> r[i] == Leaf([key] + ls[i].path, ls[i].val)
  {
    seq(|ls|, i requires 0 <= i < |ls| => Leaf([key] + ls[i].path, ls[i].val))
  }

  /** The leaves of the first `n` entries of `es`, in visiting order. */
  function LeavesUpTo(es: seq<Entry>, n: nat): (r: seq<Leaf>)
    requires n <= |es|
    ensures Rooted(r) && forall i :: 0 <= i < |r| ==> !r[i].val.VDict?
    decreases VDict(es), n
  {
    if n == 0 then []
    else
      var e := es[n - 1];
      LeavesUpTo(es, n - 1) +
        (if !e.val.VDict? then [Leaf([e.key], e.val)]
         else Under(e.key, LeavesUpTo(e.val.entries, |e.val.entries|)))
  }

  function Leaves(es: seq<Entry>): seq<Leaf> {
    LeavesUpTo(es, |es|)
  }

  /** The key a leaf gets: a top-level key as it is, a nested path joined by
      the delimiter, which only works on strings. */
  function FlatKey(path: seq<Key>, delim: string): (r: Result<Key>)
    requires |path| >= 1
    ensures r.Err? ==> r == Err(TypeError)
  {
    if |path| == 1 then Ok(path[0])
    else
      match FlatKey(path[1..], delim)
      case Err(e) => Err(e)
      case Ok(rest) => JoinKey(path[0], delim, rest)
  }

  /** The leaves as entries under their flat keys, in order. */
  function FlatPairs(ls: seq<Leaf>, delim: string): (r: Result<seq<Entry>>)
    requires Rooted(ls)
    ensures r.Ok? ==> |r.value| == |ls|
    ensures r.Ok? ==> forall i :: 0 <= i < |ls| ==>
      FlatKey(ls[i].path, delim) == Ok(r.value[i].key) && r.value[i].val == ls[i].val
    ensures r.Err? <==> exists i :: 0 <= i < |ls| && FlatKey(ls[i].path, delim).Err?
    ensures r.Err? ==> r == Err(TypeError)
  {
    if ls == [] then Ok([])
    else
      assert forall i :: 0 <= i < |ls[1..]| ==> ls[1..][i] == ls[i + 1];
      match FlatKey(ls[0].path, delim)
      case Err(e) => Err(e)
      case Ok(k) =>
        match FlatPairs(ls[1..], delim)
        case Err(e) =>
          var i :| 0 <= i < |ls[1..]| && FlatKey(ls[1..][i].path, delim).Err?;
          assert FlatKey(ls[i + 1].path, delim).Err?;
          Err(e)
        case Ok(rest) =>
          var r := [Entry(k, ls[0].val)] + rest;
          assert forall i :: 1 <= i < |ls| ==> ls[i] == ls[1..][i - 1] && r[i] == rest[i - 1];
          Ok(r)
  }

  /** Entries that agree with the leaves one by one are their flat pairs. */
  lemma FlatPairsPointwise(ls: seq<Leaf>, es: seq<Entry>, delim: string)
    requires Rooted(ls)
    requires |es| == |ls|
    requires forall i :: 0 <= i < |ls| ==> FlatKey(ls[i].path, delim) == Ok(es[i].key) && ls[i].val == es[i].val
    ensures FlatPairs(ls, delim) == Ok(es)
  {
    var r := FlatPairs(ls, delim);
    assert forall i :: 0 <= i < |ls| ==> FlatKey(ls[i].path, delim).Ok?;
    forall i | 0 <= i < |ls| ensures r.value[i] == es[i] {
      assert FlatKey(ls[i].path, delim) == Ok(r.value[i].key);
    }
    assert r.value == es;
  }

  /** A failing key on either side makes the whole run fail. */
  lemma FlatPairsAppendErr(a: seq<Leaf>, b: seq<Leaf>, delim: string)
    requires Rooted(a + b)
    requires Rooted(a)
    requires Rooted(b)
    requires FlatPairs(a, delim).Err? || FlatPairs(b, delim).Err?
    ensures FlatPairs(a + b, delim) == Err(TypeError)
  {
    var ab := a + b;
    if FlatPairs(a, delim).Err? {
      var i :| 0 <= i < |a| && FlatKey(a[i].path, delim).Err?;
      assert ab[i] == a[i];
    } else {
      var i :| 0 <= i < |b| && FlatKey(b[i].path, delim).Err?;
      assert ab[|a| + i] == b[i];
    }
  }

  /** When both sides succeed, the pairs are those of each, concatenated. */
  lemma FlatPairsAppendOk(a: seq<Leaf>, b: seq<Leaf>, delim: string)
    requires Rooted(a + b)
    requires Rooted(a)
    requires Rooted(b)
    requires FlatPairs(a, delim).Ok? && FlatPairs(b, delim).Ok?
    ensures FlatPairs(a + b, delim) == Ok(FlatPairs(a, delim).value + FlatPairs(b, delim).value)
  {
    var ab := a + b;
    var x, y := FlatPairs(a, delim).value, FlatPairs(b, delim).value;
    var xy: seq<Entry> := x + y;
    forall i | 0 <= i < |ab|
      ensures FlatKey(ab[i].path, delim) == Ok(xy[i].key) && ab[i].val == xy[i].val
    {
      if i < |a| {
        assert ab[i] == a[i] && xy[i] == x[i];
        assert FlatKey(a[i].path, delim) == Ok(x[i].key);
      } else {
        assert ab[i] == b[i - |a|] && xy[i] == y[i - |a|];
        assert FlatKey(b[i - |a|].path, delim) == Ok(y[i - |a|].key);
      }
    }
    FlatPairsPointwise(ab, xy, delim);
  }

  /** The flat pairs of two runs of leaves are those of each, concatenated. */
  lemma FlatPairsAppend(a: seq<Leaf>, b: seq<Leaf>, delim: string)
    requires Rooted(a)
    requires Rooted(b)
    ensures Rooted(a + b)
    ensures FlatPairs(a + b, delim) ==
      match FlatPairs(a, delim)
      case Err(e) => Err(e)
      case Ok(x) =>
        match FlatPairs(b, delim)
        case Err(e) => Err(e)
        case Ok(y) => Ok(x + y)
  {
    if FlatPairs(a, delim).Err? || FlatPairs(b, delim).Err? {
      FlatPairsAppendErr(a, b, delim);
    } else {
      FlatPairsAppendOk(a, b, delim);
    }
  }

  /** Every key of `c` is a string, and so is the parent key. */
  predicate Joinable(key: Key, c: seq<Entry>) {
    key.Str? && forall e :: e in c ==> e.key.Str?
  }

  /** A child key joined to its parent key. */
  function RenameKey(key: Key, delim: string, k: Key): Key {
    if key.Str? && k.Str? then Str(key.s + delim + k.s) else k
  }

  /** The entries of a child with their keys joined to the parent key. */
  function Rename(key: Key, delim: string, c: seq<Entry>): (r: seq<Entry>)
    ensures |r| == |c|
    ensures forall i :: 0 <= i < |c| ==> r[i] == Entry(RenameKey(key, delim, c[i].key), c[i].val)
  {
    seq(|c|, i requires 0 <= i < |c| => Entry(RenameKey(key, delim, c[i].key), c[i].val))
  }

  /** The entries the inner loop inserts, or the `TypeError` it stops with. */
  function Prefixed(key: Key, delim: string, c: seq<Entry>): Result<seq<Entry>> {
    if c == [] then Ok([])
    else if Joinable(key, c) then Ok(Rename(key, delim, c))
    else Err(TypeError)
  }

  /** The inner loop inserts the renamed entries of the child, in order. */
  lemma {:induction false} InsertPrefixedAsPutAll(acc: seq<Entry>, key: Key, delim: string, c: seq<Entry>)
    ensures InsertPrefixed(acc, key, delim, c) ==
      match Prefixed(key, delim, c)
      case Err(e) => Err(e)
      case Ok(pc) => Ok(PutAll(acc, pc))
    decreases |c|
  {
    if c != [] {
      assert c[0] in c;
      assert forall e :: e in c[1..] ==> e in c;
      var j := JoinKey(key, delim, c[0].key);
      if j.Ok? {
        var e := Entry(j.value, c[0].val);
        InsertPrefixedAsPutAll(Put(acc, j.value, c[0].val), key, delim, c[1..]);
        if Joinable(key, c) {
          var rest := Rename(key, delim, c[1..]);
          assert Rename(key, delim, c) == [e] + rest;
          PutAllAppend(acc, [e], rest);
          assert [e][..0] == [];
          if c[1..] == [] {
            assert [e] + rest == [e];
          } else {
            assert Joinable(key, c[1..]);
          }
        } else {
          var k :| k in c && !k.key.Str?;
          assert k != c[0];
          assert k in c[1..];
        }
      }
    }
  }

  /** A nested path's flat key is the flat key of the rest joined to the
      first key. */
  lemma FlatKeyCons(key: Key, p: seq<Key>, delim: string)
    requires |p| >= 1
    ensures FlatKey(p, delim).Err? ==> FlatKey([key] + p, delim) == FlatKey(p, delim)
    ensures FlatKey(p, delim).Ok? ==> FlatKey([key] + p, delim) == JoinKey(key, delim, FlatKey(p, delim).value)
  {
    assert ([key] + p)[1..] == p;
  }

  /** The leaves below a parent key take the parent key in front of their
      flat keys. */
  lemma UnderPairs(key: Key, cl: seq<Leaf>, delim: string)
    requires Rooted(cl)
    ensures Rooted(Under(key, cl))
    ensures FlatPairs(cl, delim).Err? ==> FlatPairs(Under(key, cl), delim) == FlatPairs(cl, delim)
    ensures FlatPairs(cl, delim).Ok? ==>
      FlatPairs(Under(key, cl), delim) == Prefixed(key, delim, FlatPairs(cl, delim).value)
  {
    var u := Under(key, cl);
    forall i | 0 <= i < |cl|
      ensures |cl[i].path| >= 1
      ensures FlatKey(cl[i].path, delim).Err? ==> FlatKey(u[i].path, delim).Err?
      ensures FlatKey(cl[i].path, delim).Ok? ==>
        FlatKey(u[i].path, delim) == JoinKey(key, delim, FlatKey(cl[i].path, delim).value)
    {
      FlatKeyCons(key, cl[i].path, delim);
    }
    var r := FlatPairs(cl, delim);
    if r.Err? {
      var i :| 0 <= i < |cl| && FlatKey(cl[i].path, delim).Err?;
      assert FlatKey(u[i].path, delim).Err?;
    } else if cl != [] {
      var pairs := r.value;
      if Joinable(key, pairs) {
        forall i | 0 <= i < |u| ensures FlatKey(u[i].path, delim) == Ok(Rename(key, delim, pairs)[i].key) {
          assert pairs[i] in pairs;
        }
        var fu := FlatPairs(u, delim);
        assert fu.Ok?;
        assert fu.value == Rename(key, delim, pairs);
      } else {
        var i :| 0 <= i < |pairs| && (!key.Str? || !pairs[i].key.Str?);
        assert FlatKey(u[i].path, delim).Err?;
      }
    }
  }

  /** Joining to the same parent key is injective on string keys. */
  lemma RenameKeyInjective(key: Key, delim: string, a: Key, b: Key)
    requires key.Str? && a.Str? && b.Str?
    ensures RenameKey(key, delim, a) == RenameKey(key, delim, b) <==> a == b
  {
    var p := key.s + delim;
    assert key.s + delim + a.s == p + a.s && key.s + delim + b.s == p + b.s;
    if p + a.s == p + b.s {
      assert a.s == (p + a.s)[|p|..] && b.s == (p + b.s)[|p|..];
    }
  }

  predicate StringKeys(d: seq<Entry>) {
    forall e :: e in d ==> e.key.Str?
  }

  /** Renaming works entry by entry from the front. */
  lemma RenameCons(key: Key, delim: string, c: seq<Entry>)
    requires c != []
    ensures Rename(key, delim, c) == [Entry(RenameKey(key, delim, c[0].key), c[0].val)] + Rename(key, delim, c[1..])
  {
    var r := Rename(key, delim, c);
    assert r[1..] == Rename(key, delim, c[1..]);
  }

  /** Renaming commutes with `d[k] = v`. */
  lemma {:induction false} RenamePut(key: Key, delim: string, d: seq<Entry>, k: Key, v: Value)
    requires key.Str? && k.Str? && StringKeys(d)
    ensures Rename(key, delim, Put(d, k, v)) == Put(Rename(key, delim, d), RenameKey(key, delim, k), v)
  {
    if d != [] {
      assert d[0] in d;
      RenameKeyInjective(key, delim, d[0].key, k);
      RenameCons(key, delim, d);
      var pd := Put(d, k, v);
      RenameCons(key, delim, pd);
      if d[0].key != k {
        assert forall e :: e in d[1..] ==> e in d;
        RenamePut(key, delim, d[1..], k, v);
        assert pd[0] == d[0] && pd[1..] == Put(d[1..], k, v);
      } else {
        assert pd[0] == Entry(k, v) && pd[1..] == d[1..];
      }
    }
  }

  /** Renaming commutes with inserting a run of entries. */
  lemma {:induction false} RenamePutAll(key: Key, delim: string, acc: seq<Entry>, m: seq<Entry>)
    requires key.Str? && StringKeys(acc) && StringKeys(m)
    ensures Rename(key, delim, PutAll(acc, m)) == PutAll(Rename(key, delim, acc), Rename(key, delim, m))
  {
    if m != [] {
      var n := |m| - 1;
      assert forall e :: e in m[..n] ==> e in m;
      assert m[n] in m;
      RenamePutAll(key, delim, acc, m[..n]);
      PutAllEntries(acc, m[..n]);
      RenamePut(key, delim, PutAll(acc, m[..n]), m[n].key, m[n].val);
      var rm := Rename(key, delim, m);
      assert rm[..n] == Rename(key, delim, m[..n]);
    }
  }

  /** A key of the inserted run is a key of the result. */
  lemma PutAllKeeps(acc: seq<Entry>, m: seq<Entry>, e: Entry)
    requires e in m
    ensures e.key in Keys(PutAll(acc, m))
  {
    LookupPutAll(acc, m, e.key);
    LatestSome(m, e.key);
    LookupSome(PutAll(acc, m), e.key);
  }

  /** Joining the keys of the dictionary built from `cps` is joining the
      keys of `cps` and building the dictionary from those. */
  lemma PrefixedPutAll(key: Key, delim: string, cps: seq<Entry>)
    ensures Prefixed(key, delim, cps).Err? ==>
      Prefixed(key, delim, PutAll([], cps)) == Prefixed(key, delim, cps)
    ensures Prefixed(key, delim, cps).Ok? ==>
      Prefixed(key, delim, PutAll([], cps)) == Ok(PutAll([], Prefixed(key, delim, cps).value))
  {
    var d := PutAll([], cps);
    if cps != [] {
      assert d != [];
      PutAllEntries([], cps);
      if Joinable(key, cps) {
        assert Joinable(key, d);
        RenamePutAll(key, delim, [], cps);
      } else if key.Str? {
        var e :| e in cps && !e.key.Str?;
        PutAllKeeps([], cps, e);
        var i :| 0 <= i < |d| && d[i].key == e.key;
        assert d[i] in d;
      }
    }
  }

  /** A plain value adds one pair, which is inserted under its own key. */
  lemma PlainStep(l: seq<Leaf>, k: Key, v: Value, delim: string)
    requires Rooted(l)
    ensures Rooted(l + [Leaf([k], v)])
    ensures FlatPairs(l, delim).Err? ==> FlatPairs(l + [Leaf([k], v)], delim).Err?
    ensures FlatPairs(l, delim).Ok? ==>
      && FlatPairs(l + [Leaf([k], v)], delim).Ok?
      && PutAll([], FlatPairs(l + [Leaf([k], v)], delim).value) == Put(PutAll([], FlatPairs(l, delim).value), k, v)
  {
    var last := [Leaf([k], v)];
    FlatPairsAppend(l, last, delim);
    assert last[1..] == [] && FlatPairs([], delim) == Ok([]);
    assert FlatKey(last[0].path, delim) == Ok(k);
    assert FlatPairs(last, delim) == Ok([Entry(k, v)] + []);
    assert [Entry(k, v)] + [] == [Entry(k, v)];
    var fl := FlatPairs(l, delim);
    if fl.Ok? {
      assert (fl.value + [Entry(k, v)])[..|fl.value|] == fl.value;
    }
  }

  /** A nested dictionary adds the pairs of its leaves, joined to its key;
      the inner loop inserts exactly those. */
  lemma DictStep(l: seq<Leaf>, k: Key, cl: seq<Leaf>, delim: string)
    requires Rooted(l)
    requires Rooted(cl)
    ensures Rooted(l + Under(k, cl))
    ensures FlatPairs(l, delim).Err? || FlatPairs(cl, delim).Err? ==> FlatPairs(l + Under(k, cl), delim).Err?
    ensures FlatPairs(l, delim).Ok? && FlatPairs(cl, delim).Ok? ==>
      var r := InsertPrefixed(PutAll([], FlatPairs(l, delim).value), k, delim, PutAll([], FlatPairs(cl, delim).value));
      && (r.Err? <==> FlatPairs(l + Under(k, cl), delim).Err?)
      && (r.Ok? ==> r.value == PutAll([], FlatPairs(l + Under(k, cl), delim).value))
  {
    UnderPairs(k, cl, delim);
    FlatPairsAppend(l, Under(k, cl), delim);
    var fl, fc := FlatPairs(l, delim), FlatPairs(cl, delim);
    if fl.Ok? && fc.Ok? {
      var acc := PutAll([], fl.value);
      PrefixedPutAll(k, delim, fc.value);
      InsertPrefixedAsPutAll(acc, k, delim, PutAll([], fc.value));
      var pc := Prefixed(k, delim, fc.value);
      if pc.Ok? {
        PutAllThroughDict(acc, pc.value);
        PutAllAppend([], fl.value, pc.value);
      }
    }
  }

  /** The loop and the leaves agree on the first `n` entries of `es`. */
  predicate AgreesWithLeaves(es: seq<Entry>, n: nat, delim: string)
    requires n <= |es|
  {
    var pairs := FlatPairs(LeavesUpTo(es, n), delim);
    && (pairs.Err? ==> FlattenUpTo(es, n, delim) == Err(TypeError))
    && (pairs.Ok? ==> FlattenUpTo(es, n, delim) == Ok(PutAll([], pairs.value)))
  }

  /** Agreement survives visiting a plain value. */
  lemma PlainEntryAgrees(es: seq<Entry>, n: nat, delim: string)
    requires 0 < n <= |es| && !es[n - 1].val.VDict?
    requires AgreesWithLeaves(es, n - 1, delim)
    ensures AgreesWithLeaves(es, n, delim)
  {
    var e := es[n - 1];
    var l := LeavesUpTo(es, n - 1);
    assert LeavesUpTo(es, n) == l + [Leaf([e.key], e.val)];
    PlainStep(l, e.key, e.val, delim);
  }

  /** Agreement survives visiting a nested dictionary that agrees itself. */
  lemma DictEntryAgrees(es: seq<Entry>, n: nat, delim: string)
    requires 0 < n <= |es| && es[n - 1].val.VDict?
    requires AgreesWithLeaves(es, n - 1, delim)
    requires AgreesWithLeaves(es[n - 1].val.entries, |es[n - 1].val.entries|, delim)
    ensures AgreesWithLeaves(es, n, delim)
  {
    var e := es[n - 1];
    var l := LeavesUpTo(es, n - 1);
    var cl := LeavesUpTo(e.val.entries, |e.val.entries|);
    assert LeavesUpTo(es, n) == l + Under(e.key, cl);
    DictStep(l, e.key, cl, delim);
  }

  /** The loop builds the dictionary that inserting the flat pairs of the
      leaves visited so far, in order, into an empty dictionary builds; it
      fails exactly when some nested leaf's path cannot be joined. */
  lemma {:induction false} FlattenUpToLeaves(es: seq<Entry>, n: nat, delim: string)
    requires n <= |es|
    ensures AgreesWithLeaves(es, n, delim)
    decreases VDict(es), n
  {
    if n > 0 {
      var e := es[n - 1];
      FlattenUpToLeaves(es, n - 1, delim);
      if !e.val.VDict? {
        PlainEntryAgrees(es, n, delim);
      } else {
        assert e in es;
        FlattenUpToLeaves(e.val.entries, |e.val.entries|, delim);
        DictEntryAgrees(es, n, delim);
      }
    }
  }

  /** `_flatten_dict` builds the dictionary that inserting every leaf under
      its joined path, in visiting order, builds; it fails with a `TypeError`
      exactly when a nested path holds a key that is not a string, and with
      an `AttributeError` on anything but a dictionary. */
  lemma FlattenAsLeaves(obj: Value, delim: string)
    ensures !obj.VDict? ==> Flatten(obj, delim) == Err(AttributeError)
    ensures obj.VDict? && FlatPairs(Leaves(obj.entries), delim).Err? ==> Flatten(obj, delim) == Err(TypeError)
    ensures obj.VDict? && FlatPairs(Leaves(obj.entries), delim).Ok? ==>
      Flatten(obj, delim) == Ok(VDict(PutAll([], FlatPairs(Leaves(obj.entries), delim).value)))
  {
    if obj.VDict? {
      FlattenUpToLeaves(obj.entries, |obj.entries|, delim);
    }
  }

  /** Every leaf appears under its joined path; the value stored under a key
      is that of the last leaf whose path joins to it, and every key is the
      joined path of some leaf. */
  lemma FlattenLeafKeys(obj: Value, delim: string)
    requires obj.VDict? && Flatten(obj, delim).Ok?
    ensures FlatPairs(Leaves(obj.entries), delim).Ok?
    ensures
      var ls, pairs := Leaves(obj.entries), FlatPairs(Leaves(obj.entries), delim).value;
      var r := Flatten(obj, delim).value.entries;
      && (forall i :: 0 <= i < |ls| ==>
            FlatKey(ls[i].path, delim) == Ok(pairs[i].key) && pairs[i].val == ls[i].val && pairs[i].key in Keys(r))
      && (forall k :: Lookup(r, k) == Latest(pairs, k))
      && (forall e :: e in r ==> e in pairs)
  {
    FlattenAsLeaves(obj, delim);
    var pairs := FlatPairs(Leaves(obj.entries), delim).value;
    var r := PutAll([], pairs);
    forall k ensures Lookup(r, k) == Latest(pairs, k) {
      LookupPutAll([], pairs, k);
      LatestSome(pairs, k);
    }
    forall i | 0 <= i < |pairs| ensures pairs[i].key in Keys(r) {
      PutAllKeeps([], pairs, pairs[i]);
    }
    PutAllEntries([], pairs);
  }

  /** A dictionary without nested dictionaries flattens to itself. */
  lemma {:induction false} FlatUpTo(es: seq<Entry>, n: nat, delim: string)
    requires n <= |es| && NoDicts(es) && UniqueKeys(es)
    ensures FlattenUpTo(es, n, delim) == Ok(es[..n])
  {
    if n > 0 {
      FlatUpTo(es, n - 1, delim);
      assert es[n - 1] in es;
      assert es[n - 1].key !in Keys(es[..n - 1]);
      PutNew(es[..n - 1], es[n - 1].key, es[n - 1].val);
      assert es[..n - 1] + [es[n - 1]] == es[..n];
    }
  }

  lemma FlattenFlat(es: seq<Entry>, delim: string)
    requires NoDicts(es) && UniqueKeys(es)
    ensures Flatten(VDict(es), delim) == Ok(VDict(es))
  {
    FlatUpTo(es, |es|, delim);
    assert es[..|es|] == es;
  }

  /** Flattening twice is flattening once. */
  lemma FlattenIdempotent(obj: Value, delim: string)
    requires Flatten(obj, delim).Ok?
    ensures Flatten(Flatten(obj, delim).value, delim) == Flatten(obj, delim)
  {
    FlattenFlat(Flatten(obj, delim).value.entries, delim);
  }

  /** The leaves of a prefix do not depend on what follows it. */
  lemma {:induction false} LeavesPrefix(a: seq<Entry>, b: seq<Entry>, n: nat)
    requires n <= |a|
    ensures LeavesUpTo(a + b, n) == LeavesUpTo(a, n)
  {
    if n > 0 {
      assert (a + b)[n - 1] == a[n - 1];
      LeavesPrefix(a, b, n - 1);
    }
  }

  /** The leaves of a concatenation are the leaves of each part. */
  lemma {:induction false} LeavesAppend(a: seq<Entry>, b: seq<Entry>, m: nat)
    requires m <= |b|
    ensures LeavesUpTo(a + b, |a| + m) == Leaves(a) + LeavesUpTo(b, m)
  {
    if m == 0 {
      LeavesPrefix(a, b, |a|);
    } else {
      assert (a + b)[|a| + m - 1] == b[m - 1];
      LeavesAppend(a, b, m - 1);
    }
  }

  /** An empty nested dictionary has no leaves. */
  lemma LeavesEmptyChild(a: seq<Entry>, k: Key, b: seq<Entry>)
    ensures Leaves(a + [Entry(k, VDict([]))] + b) == Leaves(a + b)
  {
    var x := [Entry(k, VDict([]))];
    LeavesAppend(a + x, b, |b|);
    LeavesAppend(a, x, 1);
    LeavesAppend(a, b, |b|);
    assert LeavesUpTo(x, 1) == [];
    assert Leaves(a) + [] == Leaves(a);
  }

  /** An empty nested dictionary contributes no keys. */
  lemma FlattenEmptyChild(a: seq<Entry>, k: Key, b: seq<Entry>, delim: string)
    ensures Flatten(VDict(a + [Entry(k, VDict([]))] + b), delim) == Flatten(VDict(a + b), delim)
  {
    LeavesEmptyChild(a, k, b);
    FlattenAsLeaves(VDict(a + [Entry(k, VDict([]))] + b), delim);
    FlattenAsLeaves(VDict(a + b), delim);
  }

  // ---------------------------------------------------------------------
  // The expected shape
  // ---------------------------------------------------------------------

  const DimensionsPath: seq<Key> := [Str("encoding"), Str("dimensions")]
  const ChannelsPath: seq<Key> := [Str("acquisition_system"), Str("receiver_channels")]
  const ReadoutPath: seq<Key> := [Str("encoding"), Str("encoded_space"), Str("matrix_size"), Int(0)]

  /** The axes of the expected shape, outermost first; `phase` is not one. */
  const ShapeOrder: seq<string> := ["readout", "channel", "kspace_encoding_step1", "kspace_encoding_step2",
                                    "slice", "repetition", "set", "segment", "contrast", "average"]

  /** The tree with the value at `path` replaced, every dictionary on the way
      keeping its key order: what an assignment into a dictionary nested in
      the tree does to the tree. */
  function Replace(tree: Value, path: seq<Key>, v: Value): Value
    decreases |path|
  {
    if path == [] then v
    else if !tree.VDict? then tree
    else
      match Lookup(tree.entries, path[0])
      case None => tree
      case Some(child) => VDict(Put(tree.entries, path[0], Replace(child, path[1..], v)))
  }

  /** After the replacement the path leads to the new value. */
  lemma {:induction false} ReplaceGet(tree: Value, path: seq<Key>, v: Value)
    requires Get(tree, path).Ok? && forall k :: k in path ==> k.Str?
    ensures Get(Replace(tree, path, v), path) == Ok(v)
    decreases |path|
  {
    if path != [] {
      assert path[0] in path;
      assert forall k :: k in path[1..] ==> k in path;
      var child := Subscript(tree, path[0]).value;
      ReplaceGet(child, path[1..], v);
      ReplaceGetStep(tree, path, v, Replace(child, path[1..], v));
    }
  }

  /** One level of `ReplaceGet`: a string key of a path that is followed
      leads through a dictionary, which now holds the replaced child. */
  lemma ReplaceGetStep(tree: Value, path: seq<Key>, v: Value, replaced: Value)
    requires path != [] && path[0].Str? && Get(tree, path).Ok?
    requires replaced == Replace(Subscript(tree, path[0]).value, path[1..], v)
    requires Get(replaced, path[1..]) == Ok(v)
    ensures Get(Replace(tree, path, v), path) == Ok(v)
  {
    SubscriptDict(tree.entries, path[0]);
    LookupPut(tree.entries, path[0], replaced, path[0]);
  }

  /** A path that neither leads into the replaced value nor runs through it
      sees the tree as it was. */
  lemma {:induction false} ReplaceElsewhere(tree: Value, path: seq<Key>, v: Value, q: seq<Key>)
    requires !(q <= path) && !(path <= q)
    ensures Get(Replace(tree, path, v), q) == Get(tree, q)
    decreases |path|
  {
    if tree.VDict? && Lookup(tree.entries, path[0]).Some? {
      var child := Lookup(tree.entries, path[0]).value;
      var replaced := Replace(child, path[1..], v);
      if q[0] == path[0] {
        PrefixTail(q, path);
        ReplaceElsewhere(child, path[1..], v, q[1..]);
      }
      ReplaceStep(tree, path, v, q, replaced);
    }
  }

  /** One level of `ReplaceElsewhere`: the dictionary on the path gets the
      replaced child, which a path leaving it does not see, and a path
      through the same child sees what the child's own replacement shows. */
  lemma ReplaceStep(tree: Value, path: seq<Key>, v: Value, q: seq<Key>, replaced: Value)
    requires tree.VDict? && path != [] && q != [] && Lookup(tree.entries, path[0]).Some?
    requires replaced == Replace(Lookup(tree.entries, path[0]).value, path[1..], v)
    requires q[0] == path[0] ==> Get(replaced, q[1..]) == Get(Lookup(tree.entries, path[0]).value, q[1..])
    ensures Get(Replace(tree, path, v), q) == Get(tree, q)
  {
    var nt := Replace(tree, path, v);
    assert nt == VDict(Put(tree.entries, path[0], replaced));
    LookupPut(tree.entries, path[0], replaced, q[0]);
  }

  /** Two paths that start with the same key are prefixes of each other
      exactly when their tails are. */
  lemma PrefixTail(q: seq<Key>, path: seq<Key>)
    requires q != [] && path != [] && q[0] == path[0]
    ensures (q <= path) == (q[1..] <= path[1..])
    ensures (path <= q) == (path[1..] <= q[1..])
  {
    assert q == [q[0]] + q[1..] && path == [path[0]] + path[1..];
  }

  /** A second replacement at the same path overrides the first. */
  lemma {:induction false} ReplaceReplace(tree: Value, path: seq<Key>, v1: Value, v2: Value)
    requires Get(tree, path).Ok? && forall k :: k in path ==> k.Str?
    ensures Replace(Replace(tree, path, v1), path, v2) == Replace(tree, path, v2)
    decreases |path|
  {
    if path != [] {
      assert path[0] in path;
      assert forall k :: k in path[1..] ==> k in path;
      var child := Subscript(tree, path[0]).value;
      SubscriptDict(tree.entries, path[0]);
      ReplaceReplace(child, path[1..], v1, v2);
      var c1 := Replace(child, path[1..], v1);
      LookupPut(tree.entries, path[0], c1, path[0]);
      PutPut(tree.entries, path[0], c1, Replace(child, path[1..], v2));
    }
  }

  /** `[d[key] for key in order if d[key] != 1]`. */
  function Squeeze(d: Value, order: seq<string>): (r: Result<seq<Value>>)
    ensures r.Ok? ==> |r.value| <= |order|
    ensures r.Ok? ==> forall v :: v in r.value ==> !EqualsInt(v, 1)
  {
    if order == [] then Ok([])
    else
      match Subscript(d, Str(order[0]))
      case Err(e) => Err(e)
      case Ok(v) =>
        match Squeeze(d, order[1..])
        case Err(e) => Err(e)
        case Ok(rest) => Ok(if EqualsInt(v, 1) then rest else [v] + rest)
  }

  /** The values of `keys` in `d`, in order; the first missing key raises. */
  function ValuesAt(d: Value, keys: seq<string>): (r: Result<seq<Value>>)
    ensures r.Ok? ==> |r.value| == |keys|
    ensures r.Ok? ==> forall i :: 0 <= i < |keys| ==> Subscript(d, Str(keys[i])) == Ok(r.value[i])
  {
    if keys == [] then Ok([])
    else
      match Subscript(d, Str(keys[0]))
      case Err(e) => Err(e)
      case Ok(v) =>
        match ValuesAt(d, keys[1..])
        case Err(e) => Err(e)
        case Ok(rest) =>
          assert forall i :: 1 <= i < |keys| ==> keys[i] == keys[1..][i - 1];
          Ok([v] + rest)
  }

  /** The values that are not 1, in order. */
  function DropOnes(vs: seq<Value>): (r: seq<Value>)
    ensures |r| <= |vs|
  {
    if vs == [] then []
    else (if EqualsInt(vs[0], 1) then [] else [vs[0]]) + DropOnes(vs[1..])
  }

  /** The values kept are exactly those of `vs` that are not 1. */
  lemma {:induction false} DropOnesMembers(vs: seq<Value>)
    ensures forall v :: v in DropOnes(vs) <==> v in vs && !EqualsInt(v, 1)
  {
    if vs != [] {
      DropOnesMembers(vs[1..]);
      assert vs == [vs[0]] + vs[1..];
    }
  }

  /** Dropping the ones works piece by piece, so it keeps the order. */
  lemma {:induction false} DropOnesAppend(a: seq<Value>, b: seq<Value>)
    ensures DropOnes(a + b) == DropOnes(a) + DropOnes(b)
  {
    if a == [] {
      assert a + b == b;
      assert [] + DropOnes(b) == DropOnes(b);
    } else {
      var ab := a + b;
      assert ab[0] == a[0] && ab[1..] == a[1..] + b;
      DropOnesAppend(a[1..], b);
      var head := if EqualsInt(a[0], 1) then [] else [a[0]];
      assert head + (DropOnes(a[1..]) + DropOnes(b)) == (head + DropOnes(a[1..])) + DropOnes(b);
    }
  }

  /** The comprehension looks every key up, in order, and keeps the values
      that are not 1. */
  lemma {:induction false} SqueezeValues(d: Value, order: seq<string>)
    ensures ValuesAt(d, order).Err? ==> Squeeze(d, order) == Err(ValuesAt(d, order).error)
    ensures ValuesAt(d, order).Ok? ==> Squeeze(d, order) == Ok(DropOnes(ValuesAt(d, order).value))
  {
    if order != [] {
      SqueezeValues(d, order[1..]);
      var v, rest := Subscript(d, Str(order[0])), ValuesAt(d, order[1..]);
      if v.Ok? && rest.Ok? {
        var vs := [v.value] + rest.value;
        assert vs[1..] == rest.value && vs[0] == v.value;
        assert DropOnes(vs) == (if EqualsInt(v.value, 1) then [] else [v.value]) + DropOnes(rest.value);
        assert [] + DropOnes(rest.value) == DropOnes(rest.value);
      }
    }
  }

  /** Only the keys of the order matter: a key outside it, such as `phase`,
      can hold anything. */
  lemma {:induction false} SqueezeIgnores(d: seq<Entry>, k: string, v: Value, order: seq<string>)
    requires k !in order
    ensures Squeeze(VDict(Put(d, Str(k), v)), order) == Squeeze(VDict(d), order)
  {
    if order != [] {
      assert order[0] != k;
      LookupPut(d, Str(k), v, Str(order[0]));
      assert forall x :: x in order[1..] ==> x in order;
      SqueezeIgnores(d, k, v, order[1..]);
    }
  }

  /** The value `_expected_dimensions` returns, with the header tree as the
      call leaves it. */
  datatype Outcome = Outcome(result: Result<Value>, tree: Value)

  /** `_expected_dimensions(header, as_dict)`: stores the receiver channel
      count and the encoded readout length into `header['encoding']
      ['dimensions']`, then returns the dimensions dictionary itself or the
      squeezed shape.  A failure after the first store leaves that store in
      the header. */
  function ExpectedDimensionsEffect(tree: Value, asDict: bool): Outcome {
    match Get(tree, DimensionsPath)
    case Err(e) => Outcome(Err(e), tree)
    case Ok(dims) =>
    match Get(tree, ChannelsPath)
    case Err(e) => Outcome(Err(e), tree)
    case Ok(channels) =>
    if !dims.VDict? then Outcome(Err(TypeError), tree)
    else
    var dims1 := VDict(Put(dims.entries, Str("channel"), channels));
    var tree1 := Replace(tree, DimensionsPath, dims1);
    match Get(tree1, ReadoutPath)
    case Err(e) => Outcome(Err(e), tree1)
    case Ok(readout) =>
    var dims2 := VDict(Put(dims1.entries, Str("readout"), readout));
    var tree2 := Replace(tree1, DimensionsPath, dims2);
    if asDict then Outcome(Ok(dims2), tree2)
    else
      match Squeeze(dims2, ShapeOrder)
      case Err(e) => Outcome(Err(e), tree2)
      case Ok(shape) => Outcome(Ok(VList(shape)), tree2)
  }

  /** A header document that `_expected_dimensions` updates in place. */
  class HeaderTree {
    var tree: Value

    constructor(tree: Value)
      ensures this.tree == tree
    {
      this.tree := tree;
    }

    /** `_expected_dimensions(self.tree, as_dict)`. */
    method ExpectedDimensions(asDict: bool) returns (r: Result<Value>)
      modifies this
      ensures Outcome(r, tree) == ExpectedDimensionsEffect(old(tree), asDict)
    {
      var dims :- Get(tree, DimensionsPath);
      var channels :- Get(tree, ChannelsPath);
      if !dims.VDict? {
        return Err(TypeError);
      }
      dims := VDict(Put(dims.entries, Str("channel"), channels));
      tree := Replace(tree, DimensionsPath, dims);
      var readout :- Get(tree, ReadoutPath);
      dims := VDict(Put(dims.entries, Str("readout"), readout));
      tree := Replace(tree, DimensionsPath, dims);
      if asDict {
        return Ok(dims);
      }
      var shape :- Squeeze(dims, ShapeOrder);
      return Ok(VList(shape));
    }
  }

  /** The dimensions dictionary after both stores, computed from the header
      as it was before the call. */
  function StoredDimensions(dims: seq<Entry>, channels: Value, readout: Value): (r: seq<Entry>)
    ensures Lookup(r, Str("channel")) == Some(channels)
    ensures Lookup(r, Str("readout")) == Some(readout)
    ensures forall k :: k != Str("channel") && k != Str("readout") ==> Lookup(r, k) == Lookup(dims, k)
  {
    var r := Put(Put(dims, Str("channel"), channels), Str("readout"), readout);
    LookupPut(dims, Str("channel"), channels, Str("readout"));
    var r1 := Put(dims, Str("channel"), channels);
    assert forall k :: Lookup(r, k) == (if k == Str("readout") then Some(readout) else Lookup(r1, k)) by {
      forall k ensures Lookup(r, k) == (if k == Str("readout") then Some(readout) else Lookup(r1, k)) {
        LookupPut(Put(dims, Str("channel"), channels), Str("readout"), readout, k);
      }
    }
    assert forall k :: Lookup(r1, k) == (if k == Str("channel") then Some(channels) else Lookup(dims, k)) by {
      forall k ensures Lookup(r1, k) == (if k == Str("channel") then Some(channels) else Lookup(dims, k)) {
        LookupPut(dims, Str("channel"), channels, k);
      }
    }
    r
  }

  /** A successful call read the dimensions dictionary, the channel count and
      the readout length from the header as it was (the first store cannot
      disturb the readout path), and left the header with that dictionary
      replaced by its stored form. */
  lemma ExpectedDimensionsReads(tree: Value, asDict: bool)
    requires ExpectedDimensionsEffect(tree, asDict).result.Ok?
    ensures Get(tree, DimensionsPath).Ok? && Get(tree, DimensionsPath).value.VDict?
    ensures Get(tree, ChannelsPath).Ok? && Get(tree, ReadoutPath).Ok?
    ensures
      var d2 := VDict(StoredDimensions(Get(tree, DimensionsPath).value.entries,
        Get(tree, ChannelsPath).value, Get(tree, ReadoutPath).value));
      var o := ExpectedDimensionsEffect(tree, asDict);
      && o.tree == Replace(tree, DimensionsPath, d2)
      && (asDict ==> o.result == Ok(d2))
      && (!asDict ==> Squeeze(d2, ShapeOrder).Ok? && o.result == Ok(VList(Squeeze(d2, ShapeOrder).value)))
  {
    var dims := Get(tree, DimensionsPath).value;
    var channels := Get(tree, ChannelsPath).value;
    var dims1 := VDict(Put(dims.entries, Str("channel"), channels));
    assert ReadoutPath[1] != DimensionsPath[1];
    ReplaceElsewhere(tree, DimensionsPath, dims1, ReadoutPath);
    var readout := Get(tree, ReadoutPath).value;
    var dims2 := VDict(Put(dims1.entries, Str("readout"), readout));
    ReplaceReplace(tree, DimensionsPath, dims1, dims2);
  }

  /** Replacing the dimensions dictionary of a header by `d2` makes it the
      one found there, and changes nothing off that path. */
  lemma ReplaceDimensions(tree: Value, d2: Value)
    requires Get(tree, DimensionsPath).Ok?
    ensures Get(Replace(tree, DimensionsPath, d2), DimensionsPath) == Ok(d2)
    ensures forall q :: !(q <= DimensionsPath) && !(DimensionsPath <= q) ==>
      Get(Replace(tree, DimensionsPath, d2), q) == Get(tree, q)
  {
    ReplaceGet(tree, DimensionsPath, d2);
    forall q | !(q <= DimensionsPath) && !(DimensionsPath <= q)
      ensures Get(Replace(tree, DimensionsPath, d2), q) == Get(tree, q)
    {
      ReplaceElsewhere(tree, DimensionsPath, d2, q);
    }
  }

  /** What a successful call stores: the dimensions dictionary of the header
      now maps `channel` to the receiver channel count and `readout` to the
      encoded readout length, and every other key as before; the rest of the
      header is unchanged.  With `as_dict` the call returns that very
      dictionary, otherwise its values in shape order with the ones dropped. */
  lemma ExpectedDimensionsStores(tree: Value, asDict: bool)
    requires ExpectedDimensionsEffect(tree, asDict).result.Ok?
    ensures Get(tree, DimensionsPath).Ok? && Get(tree, DimensionsPath).value.VDict?
    ensures Get(tree, ChannelsPath).Ok? && Get(tree, ReadoutPath).Ok?
    ensures
      var o := ExpectedDimensionsEffect(tree, asDict);
      var d := Get(tree, DimensionsPath).value.entries;
      && Get(o.tree, DimensionsPath).Ok? && Get(o.tree, DimensionsPath).value.VDict?
      && var d2 := Get(o.tree, DimensionsPath).value.entries;
         && Lookup(d2, Str("channel")) == Some(Get(tree, ChannelsPath).value)
         && Lookup(d2, Str("readout")) == Some(Get(tree, ReadoutPath).value)
         && (forall k :: k != Str("channel") && k != Str("readout") ==> Lookup(d2, k) == Lookup(d, k))
         && (asDict ==> o.result == Ok(VDict(d2)))
         && (!asDict ==>
               && ValuesAt(VDict(d2), ShapeOrder).Ok?
               && o.result == Ok(VList(DropOnes(ValuesAt(VDict(d2), ShapeOrder).value))))
    ensures forall q :: !(q <= DimensionsPath) && !(DimensionsPath <= q) ==>
      Get(ExpectedDimensionsEffect(tree, asDict).tree, q) == Get(tree, q)
  {
    ExpectedDimensionsReads(tree, asDict);
    var d2 := VDict(StoredDimensions(Get(tree, DimensionsPath).value.entries,
      Get(tree, ChannelsPath).value, Get(tree, ReadoutPath).value));
    ReplaceDimensions(tree, d2);
    if !asDict {
      SqueezeValues(d2, ShapeOrder);
    }
  }

  /** Where a call fails: a missing dimensions dictionary or channel count,
      or a dimensions entry that is not a dictionary, raises before anything
      is stored; a missing readout length raises after the channel count was
      stored, and that store stays in the header. */
  lemma ExpectedDimensionsFailures(tree: Value, asDict: bool)
    ensures Get(tree, DimensionsPath).Err? ==>
      ExpectedDimensionsEffect(tree, asDict) == Outcome(Err(Get(tree, DimensionsPath).error), tree)
    ensures Get(tree, DimensionsPath).Ok? && Get(tree, ChannelsPath).Err? ==>
      ExpectedDimensionsEffect(tree, asDict) == Outcome(Err(Get(tree, ChannelsPath).error), tree)
    ensures Get(tree, DimensionsPath).Ok? && Get(tree, ChannelsPath).Ok? && !Get(tree, DimensionsPath).value.VDict? ==>
      ExpectedDimensionsEffect(tree, asDict) == Outcome(Err(TypeError), tree)
    ensures Get(tree, DimensionsPath).Ok? && Get(tree, ChannelsPath).Ok? && Get(tree, DimensionsPath).value.VDict?
            && Get(tree, ReadoutPath).Err? ==>
      var stored := Put(Get(tree, DimensionsPath).value.entries, Str("channel"), Get(tree, ChannelsPath).value);
      ExpectedDimensionsEffect(tree, asDict) ==
        Outcome(Err(Get(tree, ReadoutPath).error), Replace(tree, DimensionsPath, VDict(stored)))
  {
    var dims, channels := Get(tree, DimensionsPath), Get(tree, ChannelsPath);
    if dims.Ok? && channels.Ok? && dims.value.VDict? {
      var dims1 := VDict(Put(dims.value.entries, Str("channel"), channels.value));
      assert ReadoutPath[1] != DimensionsPath[1];
      ReplaceElsewhere(tree, DimensionsPath, dims1, ReadoutPath);
    }
  }

  /** Whatever the outcome, a call changes the header at `encoding.dimensions`
      only. */
  lemma ExpectedDimensionsElsewhere(tree: Value, asDict: bool, q: seq<Key>)
    requires !(q <= DimensionsPath) && !(DimensionsPath <= q)
    ensures Get(ExpectedDimensionsEffect(tree, asDict).tree, q) == Get(tree, q)
  {
    var dims, channels := Get(tree, DimensionsPath), Get(tree, ChannelsPath);
    if dims.Ok? && channels.Ok? && dims.value.VDict? {
      var dims1 := VDict(Put(dims.value.entries, Str("channel"), channels.value));
      var tree1 := Replace(tree, DimensionsPath, dims1);
      ReplaceDimensions(tree, dims1);
      var readout := Get(tree1, ReadoutPath);
      if readout.Ok? {
        var dims2 := VDict(Put(dims1.entries, Str("readout"), readout.value));
        ReplaceDimensions(tree1, dims2);
      }
    }
  }

  /** The shape has at most one extent per axis, none of them 1. */
  lemma ExpectedShapeBounds(tree: Value)
    requires ExpectedDimensionsEffect(tree, false).result.Ok?
    ensures ExpectedDimensionsEffect(tree, false).result.value.VList?
    ensures |ExpectedDimensionsEffect(tree, false).result.value.items| <= 10
    ensures forall v :: v in ExpectedDimensionsEffect(tree, false).result.value.items ==> !EqualsInt(v, 1)
  {
  }

  /** The phase count is not an axis of the shape. */
  lemma ShapeIgnoresPhase(d: seq<Entry>, v: Value)
    ensures Squeeze(VDict(Put(d, Str("phase"), v)), ShapeOrder) == Squeeze(VDict(d), ShapeOrder)
  {
    SqueezeIgnores(d, "phase", v, ShapeOrder);
  }

  /** Every key of `keys` is present, so none of the lookups raises. */
  lemma {:induction false} ValuesAtPresent(d: Value, keys: seq<string>)
    requires forall i :: 0 <= i < |keys| ==> Subscript(d, Str(keys[i])).Ok?
    ensures ValuesAt(d, keys).Ok?
  {
    if keys != [] {
      assert Subscript(d, Str(keys[0])).Ok?;
      assert forall i :: 0 <= i < |keys[1..]| ==> keys[1..][i] == keys[i + 1];
      ValuesAtPresent(d, keys[1..]);
    }
  }

  /** A five-entry dictionary display with distinct keys finds each entry
      under its key; every header section has this form, or fewer entries. */
  lemma FiveEntries(k0: Key, v0: Value, k1: Key, v1: Value, k2: Key, v2: Value,
                    k3: Key, v3: Value, k4: Key, v4: Value)
    requires k0 != k1 && k0 != k2 && k0 != k3 && k0 != k4 && k1 != k2
    requires k1 != k3 && k1 != k4 && k2 != k3 && k2 != k4 && k3 != k4
    ensures
      var t := VDict([Entry(k0, v0), Entry(k1, v1), Entry(k2, v2), Entry(k3, v3), Entry(k4, v4)]);
      && Subscript(t, k0) == Ok(v0) && Subscript(t, k1) == Ok(v1) && Subscript(t, k2) == Ok(v2)
      && Subscript(t, k3) == Ok(v3) && Subscript(t, k4) == Ok(v4)
  {
    var d := [Entry(k0, v0), Entry(k1, v1), Entry(k2, v2), Entry(k3, v3), Entry(k4, v4)];
    LookupAt(d, 0);
    LookupAt(d, 1);
    LookupAt(d, 2);
    LookupAt(d, 3);
    LookupAt(d, 4);
  }

  /** Following a path is a subscript, then the rest of the path. */
  lemma GetStep(v: Value, k: Key, rest: seq<Key>)
    ensures Get(v, [k] + rest) == (var w :- Subscript(v, k); Get(w, rest))
  {
    assert ([k] + rest)[0] == k && ([k] + rest)[1..] == rest;
  }

  /** The sections of the header `Image` builds that the shape reads. */
  lemma ImageHeaderSections(h: SimpleRd.Header)
    ensures Subscript(SimpleRd.HeaderValue(h), Str("acquisition_system")) ==
      Ok(SimpleRd.AcquisitionSystemValue(h.acquisitionSystem))
    ensures Subscript(SimpleRd.HeaderValue(h), Str("encoding")) == Ok(SimpleRd.EncodingValue(h.encoding))
  {
    FiveEntries(Str("acquisition_system"), SimpleRd.AcquisitionSystemValue(h.acquisitionSystem),
                Str("measurement"), SimpleRd.MeasurementValue(h.measurement),
                Str("encoding"), SimpleRd.EncodingValue(h.encoding),
                Str("parallel_imaging"), SimpleRd.ParallelImagingValue(h.parallelImaging),
                Str("sequence_parameters"), SimpleRd.SequenceParametersValue(h.sequenceParameters));
  }

  lemma ImageChannels(a: SimpleRd.AcquisitionSystem)
    ensures Get(SimpleRd.AcquisitionSystemValue(a), [Str("receiver_channels")]) == Ok(a.receiverChannels)
  {
    FiveEntries(Str("institution_name"), a.institutionName, Str("receiver_channels"), a.receiverChannels,
                Str("system_field_strength"), a.systemFieldStrength, Str("system_vendor"), a.systemVendor,
                Str("system_model"), a.systemModel);
    GetStep(SimpleRd.AcquisitionSystemValue(a), Str("receiver_channels"), []);
  }

  lemma ImageEncoding(e: SimpleRd.Encoding)
    ensures Get(SimpleRd.EncodingValue(e), [Str("dimensions")]) == Ok(SimpleRd.DimensionsValue(e.dimensions))
    ensures Get(SimpleRd.EncodingValue(e), [Str("encoded_space"), Str("matrix_size"), Int(0)]) ==
      Ok(e.encodedSpace.matrixSize.x)
  {
    var enc := SimpleRd.EncodingValue(e);
    var space := SimpleRd.SpaceValue(e.encodedSpace);
    FiveEntries(Str("trajectory"), VStr(SimpleRd.TrajectoryName(e.trajectory)),
                Str("encoded_space"), space, Str("recon_space"), SimpleRd.SpaceValue(e.reconSpace),
                Str("dimensions"), SimpleRd.DimensionsValue(e.dimensions),
                Str("phase_resolution"), e.phaseResolution);
    GetStep(enc, Str("dimensions"), []);
    GetStep(enc, Str("encoded_space"), [Str("matrix_size"), Int(0)]);
    var matrix := SimpleRd.TripleValue(e.encodedSpace.matrixSize);
    assert Subscript(space, Str("matrix_size")) == Ok(matrix);
    GetStep(space, Str("matrix_size"), [Int(0)]);
    GetStep(matrix, Int(0), []);
  }

  /** Where `_expected_dimensions` reads, the header `Image` builds holds its
      receiver channels, its encoded readout length and its dimensions. */
  lemma ImageHeaderPaths(h: SimpleRd.Header)
    ensures Get(SimpleRd.HeaderValue(h), ChannelsPath) == Ok(h.acquisitionSystem.receiverChannels)
    ensures Get(SimpleRd.HeaderValue(h), ReadoutPath) == Ok(h.encoding.encodedSpace.matrixSize.x)
    ensures Get(SimpleRd.HeaderValue(h), DimensionsPath) == Ok(SimpleRd.DimensionsValue(h.encoding.dimensions))
  {
    var tree := SimpleRd.HeaderValue(h);
    ImageHeaderSections(h);
    ImageChannels(h.acquisitionSystem);
    ImageEncoding(h.encoding);
    GetStep(tree, Str("acquisition_system"), [Str("receiver_channels")]);
    GetStep(tree, Str("encoding"), [Str("dimensions")]);
    GetStep(tree, Str("encoding"), [Str("encoded_space"), Str("matrix_size"), Int(0)]);
  }

  /** The nine dimensions with `channel` and `readout` appended, as the two
      stores leave them. */
  function ImageStored(d: SimpleRd.Dimensions, rc: Value, ro: Value): seq<Entry> {
    SimpleRd.DimensionsValue(d).entries + [Entry(Str("channel"), rc), Entry(Str("readout"), ro)]
  }

  /** Both keys are new to the header's dimensions, so both are appended. */
  lemma ImageStores(d: SimpleRd.Dimensions, rc: Value, ro: Value)
    ensures
      var dims := SimpleRd.DimensionsValue(d).entries;
      Put(Put(dims, Str("channel"), rc), Str("readout"), ro) == ImageStored(d, rc, ro)
  {
    var dims := SimpleRd.DimensionsValue(d).entries;
    LookupMissing(dims, Str("channel"));
    LookupSome(dims, Str("channel"));
    PutNew(dims, Str("channel"), rc);
    var d1 := dims + [Entry(Str("channel"), rc)];
    LookupMissing(d1, Str("readout"));
    LookupSome(d1, Str("readout"));
    PutNew(d1, Str("readout"), ro);
    assert d1 + [Entry(Str("readout"), ro)] == ImageStored(d, rc, ro);
  }

  /** The shape of the stored dimensions, axis by axis. */
  lemma ImageShape(d: SimpleRd.Dimensions, rc: Value, ro: Value)
    ensures Squeeze(VDict(ImageStored(d, rc, ro)), ShapeOrder) ==
      Ok(DropOnes([ro, rc, d.kspaceEncodingStep1, d.kspaceEncodingStep2, d.slice,
                   d.repetition, d.sets, d.segment, d.contrast, d.average]))
  {
    var stored := VDict(ImageStored(d, rc, ro));
    var vs := [ro, rc, d.kspaceEncodingStep1, d.kspaceEncodingStep2, d.slice,
               d.repetition, d.sets, d.segment, d.contrast, d.average];
    var at := [10, 9, 0, 1, 8, 5, 7, 6, 3, 2];
    forall i | 0 <= i < 10
      ensures Subscript(stored, Str(ShapeOrder[i])) == Ok(vs[i])
    {
      LookupAt(stored.entries, at[i]);
    }
    ValuesAtPresent(stored, ShapeOrder);
    assert ValuesAt(stored, ShapeOrder).value == vs;
    SqueezeValues(stored, ShapeOrder);
  }

  /** On the header `Image` builds, the stored dimensions are the header's
      own nine, then `channel` and `readout` appended, and the shape lists
      the readout length, the channel count and the dimensions in shape
      order, without the ones. */
  lemma ExpectedDimensionsOfImage(h: SimpleRd.Header, asDict: bool)
    ensures
      var d := h.encoding.dimensions;
      var rc := h.acquisitionSystem.receiverChannels;
      var ro := h.encoding.encodedSpace.matrixSize.x;
      ExpectedDimensionsEffect(SimpleRd.HeaderValue(h), asDict).result ==
        if asDict then Ok(VDict(ImageStored(d, rc, ro)))
        else Ok(VList(DropOnes([ro, rc, d.kspaceEncodingStep1, d.kspaceEncodingStep2, d.slice,
                                d.repetition, d.sets, d.segment, d.contrast, d.average])))
  {
    var tree := SimpleRd.HeaderValue(h);
    var d := h.encoding.dimensions;
    var rc := h.acquisitionSystem.receiverChannels;
    var ro := h.encoding.encodedSpace.matrixSize.x;
    ImageHeaderPaths(h);
    ImageStores(d, rc, ro);
    var dims := SimpleRd.DimensionsValue(d);
    var d1 := VDict(Put(dims.entries, Str("channel"), rc));
    assert ReadoutPath[1] != DimensionsPath[1];
    ReplaceElsewhere(tree, DimensionsPath, d1, ReadoutPath);
    ImageShape(d, rc, ro);
  }
}

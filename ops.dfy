/**
 * The Python operations the header code applies to tree values: subscripting
 * (`v[k]`), `dict.get`, `k in d.keys()`, the arithmetic and comparison
 * operators on numbers, iteration in a comprehension, and `str.split`.  Each
 * raises the exception Python raises when the operand has the wrong shape.
 */
module PyOps {
  import opened PyValues

  // ---------------------------------------------------------------------
  // Subscripts and paths
  // ---------------------------------------------------------------------

  /** `xs[k]` on a sequence: an int index, negative ones counting from the end. */
  function Index<T>(xs: seq<T>, k: Key): (r: Result<T>)
    ensures k.Int? && 0 <= k.i < |xs| ==> r == Ok(xs[k.i])
    ensures r.Err? <==> !k.Int? || k.i < -|xs| || |xs| <= k.i
  {
    if !k.Int? then Err(TypeError)
    else if 0 <= k.i < |xs| then Ok(xs[k.i])
    else if -|xs| <= k.i < 0 then Ok(xs[|xs| + k.i])
    else Err(IndexError)
  }

  /** `v[k]`: a dictionary lookup (`KeyError` when absent), or indexing a
      list, tuple or string. */
  function Subscript(v: Value, k: Key): Result<Value> {
    match v
    case VDict(d) =>
      (match Lookup(d, k)
       case Some(x) => Ok(x)
       case None => Err(KeyError(k)))
    case VList(xs) => Index(xs, k)
    case VTuple(xs) => Index(xs, k)
    case VNamedTuple(_, xs) => Index(xs, k)
    case VStr(s) => var c :- Index(s, k); Ok(VStr([c]))
    case _ => Err(TypeError)
  }

  /** A chain of subscripts `v[k1][k2]...[kn]`. */
  function Get(v: Value, path: seq<Key>): Result<Value>
    decreases |path|
  {
    if path == [] then Ok(v)
    else
      var child :- Subscript(v, path[0]);
      Get(child, path[1..])
  }

  /** Following `p + q` is following `p`, then `q` from where `p` led. */
  lemma {:induction false} GetAppend(v: Value, p: seq<Key>, q: seq<Key>)
    ensures Get(v, p + q) == (var w :- Get(v, p); Get(w, q))
    decreases |p|
  {
    if p != [] {
      assert (p + q)[0] == p[0] && (p + q)[1..] == p[1..] + q;
      var child := Subscript(v, p[0]);
      if child.Ok? {
        GetAppend(child.value, p[1..], q);
      }
    } else {
      assert p + q == q;
    }
  }

  /** A subscript of a dictionary succeeds exactly for its keys. */
  lemma SubscriptDict(d: seq<Entry>, k: Key)
    ensures Subscript(VDict(d), k).Ok? <==> k in Keys(d)
    ensures Subscript(VDict(d), k).Ok? ==> Lookup(d, k) == Some(Subscript(VDict(d), k).value)
    ensures Subscript(VDict(d), k).Err? ==> Subscript(VDict(d), k) == Err(KeyError(k))
  {
    LookupSome(d, k);
  }

  /** `v.get(k, default)`; only dictionaries have `get`. */
  function DictGet(v: Value, k: Key, default: Value): Result<Value> {
    if !v.VDict? then Err(AttributeError)
    else
      match Lookup(v.entries, k)
      case Some(x) => Ok(x)
      case None => Ok(default)
  }

  /** `k in v.keys()`; only dictionaries have `keys`. */
  function HasKey(v: Value, k: Key): Result<bool> {
    if v.VDict? then Ok(k in Keys(v.entries)) else Err(AttributeError)
  }

  /** `v` is a dictionary without the key `name`. */
  predicate Absent(v: Value, name: string) {
    v.VDict? && Str(name) !in Keys(v.entries)
  }

  /** An absent key makes `get` return its default. */
  lemma DictGetAbsent(v: Value, name: string, default: Value)
    requires Absent(v, name)
    ensures DictGet(v, Str(name), default) == Ok(default)
  {
    LookupSome(v.entries, Str(name));
  }

  // ---------------------------------------------------------------------
  // Numbers
  // ---------------------------------------------------------------------

  predicate IsNumber(v: Value) {
    v.VInt? || v.VReal?
  }

  function AsReal(v: Value): real
    requires IsNumber(v)
  {
    if v.VInt? then v.i as real else v.r
  }

  /** `a * b` on numbers; an int times an int stays an int. */
  function Mul(a: Value, b: Value): Result<Value> {
    if !IsNumber(a) || !IsNumber(b) then Err(TypeError)
    else if a.VInt? && b.VInt? then Ok(VInt(a.i * b.i))
    else Ok(VReal(AsReal(a) * AsReal(b)))
  }

  /** `a + b` on numbers; an int plus an int stays an int. */
  function Add(a: Value, b: Value): Result<Value> {
    if !IsNumber(a) || !IsNumber(b) then Err(TypeError)
    else if a.VInt? && b.VInt? then Ok(VInt(a.i + b.i))
    else Ok(VReal(AsReal(a) + AsReal(b)))
  }

  /** `a / b`: true division, whose result is always a float. */
  function Div(a: Value, b: Value): Result<Value> {
    if !IsNumber(a) || !IsNumber(b) then Err(TypeError)
    else if AsReal(b) == 0.0 then Err(ZeroDivisionError)
    else Ok(VReal(AsReal(a) / AsReal(b)))
  }

  /** `a > b`, defined on numbers only. */
  function Greater(a: Value, b: Value): Result<bool> {
    if !IsNumber(a) || !IsNumber(b) then Err(TypeError)
    else Ok(AsReal(a) > AsReal(b))
  }

  /** `v == n` for an int literal `n`: true of an int or a float of that
      value (`1.0 == 1`), false of every other value. */
  predicate EqualsInt(v: Value, n: int) {
    v == VInt(n) || v == VReal(n as real)
  }

  /** Only hashable values can be looked up in a dictionary display. */
  predicate Hashable(v: Value) {
    match v
    case VList(_) => false
    case VDict(_) => false
    case VTuple(xs) => forall i :: 0 <= i < |xs| ==> Hashable(xs[i])
    case VNamedTuple(_, xs) => forall i :: 0 <= i < |xs| ==> Hashable(xs[i])
    case _ => true
  }

  // ---------------------------------------------------------------------
  // Iteration and strings
  // ---------------------------------------------------------------------

  /** A key as the value it is. */
  function KeyValue(k: Key): Value {
    match k
    case Str(s) => VStr(s)
    case Int(i) => VInt(i)
  }

  /** What `for x in v` visits: the items of a list or tuple, the keys of a
      dictionary, the characters of a string. */
  function Iterate(v: Value): Result<seq<Value>> {
    match v
    case VList(xs) => Ok(xs)
    case VTuple(xs) => Ok(xs)
    case VNamedTuple(_, xs) => Ok(xs)
    case VDict(d) => Ok(seq(|d|, i requires 0 <= i < |d| => KeyValue(d[i].key)))
    case VStr(s) => Ok(seq(|s|, i requires 0 <= i < |s| => VStr([s[i]])))
    case _ => Err(TypeError)
  }

  /** `sep.join(parts)`. */
  function Join(parts: seq<string>, sep: char): string
    requires |parts| >= 1
  {
    if |parts| == 1 then parts[0] else parts[0] + [sep] + Join(parts[1..], sep)
  }

  /** `s.split(sep)`: the pieces between consecutive separators, empty
      pieces included; joining them again gives back `s`. */
  function Split(s: string, sep: char): (parts: seq<string>)
    ensures |parts| >= 1
    ensures forall i :: 0 <= i < |parts| ==> sep !in parts[i]
    ensures Join(parts, sep) == s
  {
    if s == [] then [""]
    else
      var rest := Split(s[1..], sep);
      if s[0] == sep then
        assert Join([""] + rest, sep) == [sep] + Join(rest, sep);
        [""] + rest
      else
        var parts := [[s[0]] + rest[0]] + rest[1..];
        assert parts[1..] == rest[1..];
        assert forall i :: 1 <= i < |parts| ==> parts[i] == rest[i];
        parts
  }

  /** The number of separators in `s` is one less than the number of pieces. */
  function Count(s: string, c: char): nat {
    if s == [] then 0 else (if s[0] == c then 1 else 0) + Count(s[1..], c)
  }

  lemma {:induction false} SplitCount(s: string, sep: char)
    ensures |Split(s, sep)| == Count(s, sep) + 1
  {
    if s != [] {
      SplitCount(s[1..], sep);
    }
  }

  /** `s[:n]`. */
  function Prefix(s: string, n: nat): (r: string)
    ensures r <= s
    ensures |r| == if |s| <= n then |s| else n
  {
    if |s| <= n then s else s[..n]
  }
}

/** Python values as this code base handles them: JSON bodies, keyword
    arguments, truthiness, `dict.get`, dict assignment and the `str()`
    rendering that the tools put into their replies. */
module Python {

  datatype Option<+T> = None | Some(value: T)

  datatype Result<+T, +E> = Success(value: T) | Failure(error: E)

  /** A JSON-like Python value. A dict is an association list kept in
      insertion order, as dicts are since Python 3.7. */
  datatype Value =
    | Null
    | Bool(b: bool)
    | Int(i: int)
    | Float(r: real)
    | Str(s: string)
    | List(items: seq<Value>)
    | Dict(entries: seq<(string, Value)>)

  type Entries = seq<(string, Value)>

  /** Python truthiness: None, False, zero and empty containers are false. */
  predicate Truthy(v: Value) {
    match v
    case Null => false
    case Bool(b) => b
    case Int(i) => i != 0
    case Float(r) => r != 0.0
    case Str(s) => s != ""
    case List(items) => items != []
    case Dict(entries) => entries != []
  }

  /** Python's `a or b`. */
  function Or(a: Value, b: Value): (r: Value)
    ensures r == a || r == b
    ensures Truthy(r) <==> Truthy(a) || Truthy(b)
    ensures Truthy(a) ==> r == a
  {
    if Truthy(a) then a else b
  }

  /** An optional string argument as the Python value it stands for. */
  function OptStr(o: Option<string>): (v: Value)
    ensures Truthy(v) <==> o.Some? && o.value != ""
  {
    match o
    case None => Null
    case Some(s) => Str(s)
  }

  /** An optional integer argument as the Python value it stands for. */
  function OptInt(o: Option<int>): (v: Value)
    ensures Truthy(v) <==> o.Some? && o.value != 0
  {
    match o
    case None => Null
    case Some(i) => Int(i)
  }

  function Keys(d: Entries): (ks: seq<string>)
    ensures |ks| == |d|
    ensures forall i :: 0 <= i < |d| ==> ks[i] == d[i].0
  {
    if d == [] then [] else [d[0].0] + Keys(d[1..])
  }

  /** The value stored under `key`, if any. */
  function Lookup(d: Entries, key: string): (r: Option<Value>)
    ensures r.None? <==> key !in Keys(d)
    ensures r.Some? ==> (key, r.value) in d
  {
    if d == [] then None
    else if d[0].0 == key then Some(d[0].1)
    else Lookup(d[1..], key)
  }

  /** Python's `d.get(key, default)`. */
  function DictGet(d: Entries, key: string, default: Value): (r: Value)
    ensures key !in Keys(d) ==> r == default
    ensures key in Keys(d) ==> (key, r) in d
  {
    match Lookup(d, key)
    case Some(v) => v
    case None => default
  }

  /** Python's `d.get(key)`. */
  function Get(d: Entries, key: string): Value {
    DictGet(d, key, Null)
  }

  /** Python's `d[key] = v`: an existing key keeps its place, a new key is appended. */
  function Set(d: Entries, key: string, v: Value): (r: Entries)
    ensures Lookup(r, key) == Some(v)
    ensures forall k :: k != key ==> Lookup(r, k) == Lookup(d, k)
    ensures key !in Keys(d) ==> r == d + [(key, v)]
    ensures key in Keys(d) ==> Keys(r) == Keys(d)
  {
    if d == [] then [(key, v)]
    else if d[0].0 == key then
      var r := [(key, v)] + d[1..];
      assert r[1..] == d[1..];
      assert Keys(r) == [key] + Keys(d[1..]) && Keys(d) == [key] + Keys(d[1..]);
      r
    else
      var t := Set(d[1..], key, v);
      SetCons(d[0], d[1..], t, key, v);
      assert d == [d[0]] + d[1..];
      [d[0]] + t
  }

  /** The step of `Set` past an entry with another key. */
  lemma SetCons(e: (string, Value), d: Entries, t: Entries, key: string, v: Value)
    requires e.0 != key && Lookup(t, key) == Some(v)
    requires forall k :: k != key ==> Lookup(t, k) == Lookup(d, k)
    requires key !in Keys(d) ==> t == d + [(key, v)]
    requires key in Keys(d) ==> Keys(t) == Keys(d)
    ensures Lookup([e] + t, key) == Some(v)
    ensures forall k :: k != key ==> Lookup([e] + t, k) == Lookup([e] + d, k)
    ensures key !in Keys([e] + d) ==> [e] + t == [e] + d + [(key, v)]
    ensures key in Keys([e] + d) ==> Keys([e] + t) == Keys([e] + d)
  {
    LookupCons(e, t, key);
    forall k | k != key ensures Lookup([e] + t, k) == Lookup([e] + d, k) {
      LookupCons(e, t, k);
      LookupCons(e, d, k);
    }
    KeysCons(e, t);
    KeysCons(e, d);
  }

  lemma LookupCons(e: (string, Value), d: Entries, k: string)
    ensures Lookup([e] + d, k) == if e.0 == k then Some(e.1) else Lookup(d, k)
  {
    assert ([e] + d)[1..] == d;
  }

  lemma KeysCons(e: (string, Value), d: Entries)
    ensures Keys([e] + d) == [e.0] + Keys(d)
  {
    assert ([e] + d)[1..] == d;
  }

  /** The entries whose values are truthy, in their order. */
  function TruthyEntries(d: Entries): (r: Entries)
    ensures |r| <= |d|
  {
    if d == [] then []
    else if Truthy(d[0].1) then [d[0]] + TruthyEntries(d[1..])
    else TruthyEntries(d[1..])
  }

  /** The entry alone when its value is truthy, nothing otherwise. */
  function Kept(e: (string, Value)): Entries {
    if Truthy(e.1) then [e] else []
  }

  /** No key occurs twice, as in every Python dict. */
  predicate DistinctKeys(d: Entries) {
    forall i, j :: 0 <= i < j < |d| ==> d[i].0 != d[j].0
  }

  lemma {:induction false} KeysAppend(a: Entries, b: Entries)
    ensures Keys(a + b) == Keys(a) + Keys(b)
  {
    if a != [] {
      assert (a + b)[1..] == a[1..] + b;
      KeysAppend(a[1..], b);
    }
  }

  lemma {:induction false} TruthyEntriesSnoc(d: Entries, e: (string, Value))
    ensures TruthyEntries(d + [e]) == TruthyEntries(d) + Kept(e)
  {
    if d != [] {
      assert (d + [e])[1..] == d[1..] + [e];
      TruthyEntriesSnoc(d[1..], e);
    }
  }

  /** `TruthyEntriesSnoc` behind a fixed prefix. */
  lemma TruthyEntriesSnocAfter(base: Entries, d: Entries, e: (string, Value))
    ensures base + TruthyEntries(d + [e]) == base + TruthyEntries(d) + Kept(e)
  {
    TruthyEntriesSnoc(d, e);
    AppendAssoc(base, TruthyEntries(d), Kept(e));
  }

  lemma AppendAssoc<T>(a: seq<T>, b: seq<T>, c: seq<T>)
    ensures a + (b + c) == a + b + c
  {
  }

  /** The value a filtered entry keeps: present and truthy, or gone. */
  function IfTruthy(o: Option<Value>): Option<Value> {
    match o
    case Some(v) => if Truthy(v) then Some(v) else None
    case None => None
  }

  /** Filtering a concatenation filters each part. */
  lemma {:induction false} TruthyEntriesAppend(a: Entries, b: Entries)
    ensures TruthyEntries(a + b) == TruthyEntries(a) + TruthyEntries(b)
  {
    if a == [] {
      assert a + b == b;
    } else {
      assert (a + b)[1..] == a[1..] + b;
      TruthyEntriesAppend(a[1..], b);
    }
  }

  /** Filtering keeps exactly the truthy values: with distinct keys, a key is
      present afterwards iff its value was truthy, and it keeps that value. */
  lemma {:induction false} TruthyEntriesLookup(d: Entries, k: string)
    requires DistinctKeys(d)
    ensures Lookup(TruthyEntries(d), k) == IfTruthy(Lookup(d, k))
  {
    if d != [] {
      assert DistinctKeys(d[1..]) by {
        forall i, j | 0 <= i < j < |d[1..]| ensures d[1..][i].0 != d[1..][j].0 {
          assert d[1..][i] == d[i + 1] && d[1..][j] == d[j + 1];
        }
      }
      TruthyEntriesLookup(d[1..], k);
      if d[0].0 == k && !Truthy(d[0].1) {
        assert k !in Keys(d[1..]) by {
          forall j | 0 <= j < |d[1..]| ensures Keys(d[1..])[j] != k {
            assert d[1..][j] == d[j + 1];
          }
        }
      }
    }
  }

  /** Nothing survives the filter exactly when no value is truthy. */
  lemma {:induction false} TruthyEntriesEmpty(d: Entries)
    ensures TruthyEntries(d) == [] <==> forall i :: 0 <= i < |d| ==> !Truthy(d[i].1)
  {
    if d != [] {
      TruthyEntriesEmpty(d[1..]);
      assert forall i :: 1 <= i < |d| ==> d[i] == d[1..][i - 1];
    }
  }

  /** Looking a key up in a concatenation searches the first part first. */
  lemma {:induction false} LookupAppend(a: Entries, b: Entries, k: string)
    ensures k in Keys(a) ==> Lookup(a + b, k) == Lookup(a, k)
    ensures k !in Keys(a) ==> Lookup(a + b, k) == Lookup(b, k)
  {
    if a != [] {
      var ab := a + b;
      assert ab[0] == a[0] && ab[1..] == a[1..] + b;
      if a[0].0 == k {
        assert Lookup(ab, k) == Some(a[0].1);
        assert Keys(a)[0] == k;
      } else {
        assert Lookup(ab, k) == Lookup(a[1..] + b, k);
        assert Lookup(a, k) == Lookup(a[1..], k);
        LookupAppend(a[1..], b, k);
        assert Keys(a) == [a[0].0] + Keys(a[1..]);
      }
    } else {
      assert a + b == b;
    }
  }

  /** A new first entry keeps the keys distinct when its key is not among the rest. */
  lemma DistinctKeysCons(e: (string, Value), t: Entries)
    requires DistinctKeys(t) && forall i :: 0 <= i < |t| ==> t[i].0 != e.0
    ensures DistinctKeys([e] + t)
  {
    forall i, j | 0 <= i < j < |[e] + t| ensures ([e] + t)[i].0 != ([e] + t)[j].0 {
      if i > 0 {
        assert ([e] + t)[i] == t[i - 1];
      }
      assert ([e] + t)[j] == t[j - 1];
    }
  }

  /** In a dict with distinct keys no key occurs before its own position. */
  lemma {:induction false} DistinctKeysPrefix(d: Entries, j: int)
    requires DistinctKeys(d) && 0 <= j < |d|
    ensures d[j].0 !in Keys(d[..j])
  {
    forall i | 0 <= i < j ensures Keys(d[..j])[i] != d[j].0 {
      assert d[..j][i] == d[i];
    }
  }

  /** With distinct keys, each key finds its own entry. */
  lemma LookupDistinct(d: Entries, j: int)
    requires DistinctKeys(d) && 0 <= j < |d|
    ensures Lookup(d, d[j].0) == Some(d[j].1)
  {
    DistinctKeysPrefix(d, j);
    assert d == d[..j] + d[j..];
    LookupAppend(d[..j], d[j..], d[j].0);
    assert d[j..][0] == d[j];
  }

  /** A payload made of fixed entries followed by the truthy ones among `opts`. */
  lemma {:induction false} FixedThenTruthy(base: Entries, opts: Entries, k: string)
    requires DistinctKeys(opts)
    ensures k in Keys(base) ==> Lookup(base + TruthyEntries(opts), k) == Lookup(base, k)
    ensures k !in Keys(base) ==> Lookup(base + TruthyEntries(opts), k) == IfTruthy(Lookup(opts, k))
    ensures Keys(base + TruthyEntries(opts))[..|base|] == Keys(base)
  {
    LookupAppend(base, TruthyEntries(opts), k);
    TruthyEntriesLookup(opts, k);
    KeysAppend(base, TruthyEntries(opts));
  }

  /** `FixedThenTruthy` for every key at once. */
  lemma FixedThenTruthyAll(base: Entries, opts: Entries)
    requires DistinctKeys(opts)
    ensures |base + TruthyEntries(opts)| >= |base|
    ensures Keys(base + TruthyEntries(opts))[..|base|] == Keys(base)
    ensures forall k :: k in Keys(base) ==> Lookup(base + TruthyEntries(opts), k) == Lookup(base, k)
    ensures forall k :: k !in Keys(base) ==> Lookup(base + TruthyEntries(opts), k) == IfTruthy(Lookup(opts, k))
  {
    FixedThenTruthy(base, opts, "");
    forall k ensures Lookup(base + TruthyEntries(opts), k) == if k in Keys(base) then Lookup(base, k) else IfTruthy(Lookup(opts, k)) {
      FixedThenTruthy(base, opts, k);
    }
  }

  /** Every key of `d` is a key of `base` or one of `done`. */
  predicate KeysWithin(d: Entries, base: Entries, done: set<string>) {
    forall k :: k in Keys(d) ==> k in Keys(base) || k in done
  }

  /** `if value: data[key] = value` on a dict whose keys come from `base` and
      the keys `done` put so far, for a key among neither: the entry is
      appended exactly when the value is truthy. */
  method PutIfTruthy(data: Entries, key: string, v: Value, ghost base: Entries, ghost done: set<string>)
    returns (d: Entries)
    requires key !in Keys(base) && key !in done && KeysWithin(data, base, done)
    ensures d == data + Kept((key, v))
    ensures KeysWithin(d, base, done + {key})
  {
    d := data;
    if Truthy(v) {
      d := Set(d, key, v);
    }
    KeysAppend(data, Kept((key, v)));
  }

  /** What Python's `type(v).__name__` prints. */
  function TypeName(v: Value): string {
    match v
    case Null => "NoneType"
    case Bool(_) => "bool"
    case Int(_) => "int"
    case Float(_) => "float"
    case Str(_) => "str"
    case List(_) => "list"
    case Dict(_) => "dict"
  }

  /** The elements a `for` loop visits, or None when the value is not iterable
      (`len` is defined on exactly the same values). */
  function Iterate(v: Value): (r: Option<seq<Value>>)
    ensures r.Some? <==> v.List? || v.Str? || v.Dict?
  {
    match v
    case List(items) => Some(items)
    case Str(s) => Some(seq(|s|, i requires 0 <= i < |s| => Str([s[i]])))
    case Dict(entries) => Some(seq(|entries|, i requires 0 <= i < |entries| => Str(entries[i].0)))
    case _ => None
  }

  /** The message of the TypeError that `len(v)` raises on a non-sized value. */
  function LenError(v: Value): string {
    "object of type '" + TypeName(v) + "' has no len()"
  }

  /** The message of the AttributeError raised by `v.attr` on a value lacking it. */
  function AttrError(v: Value, attr: string): string {
    "'" + TypeName(v) + "' object has no attribute '" + attr + "'"
  }

  /** A value on which `.get` raises. */
  predicate NotDict(v: Value) {
    !v.Dict?
  }

  /** The message of the TypeError raised by iterating a value that is not iterable. */
  function NotIterable(v: Value): string {
    "'" + TypeName(v) + "' object is not iterable"
  }

  function Digit(n: nat): char
    requires n < 10
  {
    "0123456789"[n]
  }

  function NatToString(n: nat): (s: string)
    ensures |s| > 0
    decreases n
  {
    if n < 10 then [Digit(n)] else NatToString(n / 10) + [Digit(n % 10)]
  }

  /** Python's `str(i)` for an integer. */
  function IntToString(i: int): (s: string)
    ensures |s| > 0
  {
    if i < 0 then "-" + NatToString(-i) else NatToString(i)
  }

  /** Python's `str(f)` for a float with an integral value below 10^16; other
      floats get a fixed placeholder (see README). */
  function FloatToString(r: real): string {
    if r == r.Floor as real && -10000000000000000.0 < r < 10000000000000000.0
    then IntToString(r.Floor) + ".0"
    else "<float>"
  }

  function Join(parts: seq<string>, sep: string): string {
    if parts == [] then ""
    else if |parts| == 1 then parts[0]
    else parts[0] + sep + Join(parts[1..], sep)
  }

  /** Python's `repr(v)`, without string escaping. */
  function Repr(v: Value): string
    decreases v
  {
    match v
    case Null => "None"
    case Bool(b) => if b then "True" else "False"
    case Int(i) => IntToString(i)
    case Float(r) => FloatToString(r)
    case Str(s) => "'" + s + "'"
    case List(items) =>
      "[" + Join(seq(|items|, i requires 0 <= i < |items| => Repr(items[i])), ", ") + "]"
    case Dict(entries) =>
      "{" + Join(seq(|entries|, i requires 0 <= i < |entries| =>
                       "'" + entries[i].0 + "': " + Repr(entries[i].1)), ", ") + "}"
  }

  /** Python's `str(v)`, which an f-string uses. */
  function Show(v: Value): (s: string)
    ensures v.Str? ==> s == v.s
    ensures v == Null ==> s == "None"
  {
    if v.Str? then v.s else Repr(v)
  }

  function UpperChar(c: char): char {
    if 'a' <= c <= 'z' then (c as int - 32) as char else c
  }

  function LowerChar(c: char): char {
    if 'A' <= c <= 'Z' then (c as int + 32) as char else c
  }

  /** `s.upper()` on ASCII letters. */
  function Upper(s: string): (r: string)
    ensures |r| == |s|
    ensures forall i :: 0 <= i < |s| ==> r[i] == UpperChar(s[i])
  {
    seq(|s|, i requires 0 <= i < |s| => UpperChar(s[i]))
  }

  /** `s.lower()` on ASCII letters. */
  function Lower(s: string): (r: string)
    ensures |r| == |s|
    ensures forall i :: 0 <= i < |s| ==> r[i] == LowerChar(s[i])
  {
    seq(|s|, i requires 0 <= i < |s| => LowerChar(s[i]))
  }

  predicate StartsWith(s: string, prefix: string) {
    |prefix| <= |s| && s[..|prefix|] == prefix
  }

  /** `s.lstrip(c)`: every leading occurrence of `c` removed. */
  function LStrip(s: string, c: char): (r: string)
    ensures r == [] || r[0] != c
    ensures exists n :: 0 <= n <= |s| && r == s[n..] && forall j :: 0 <= j < n ==> s[j] == c
  {
    if s != [] && s[0] == c then
      var r := LStrip(s[1..], c);
      assert forall n :: 0 <= n <= |s| - 1 ==> s[1..][n..] == s[n + 1..];
      r
    else
      assert s == s[0..];
      s
  }

  /** `''.join(parts)` over strings. */
  function Concat(parts: seq<string>): string {
    if parts == [] then "" else parts[0] + Concat(parts[1..])
  }

  /** `t` occurs somewhere in `s`. */
  predicate Contains(s: string, t: string) {
    exists i :: 0 <= i <= |s| - |t| && OccursAt(s, t, i)
  }

  predicate OccursAt(s: string, t: string, i: int)
    requires 0 <= i <= |s| - |t|
  {
    s[i..i + |t|] == t
  }

  lemma ContainsMiddle(a: string, t: string, b: string)
    ensures Contains(a + t + b, t)
  {
    var s := a + t + b;
    assert OccursAt(s, t, |a|);
  }
}

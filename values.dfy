/**
  Python values as the marshaling layer sees them: keyword options, parameter
  values and decoded JSON bodies; Python truthiness; and the insertion-ordered
  dictionaries the request builders assemble, with `d[k] = v`, `d.update(e)`
  and the whitelist filter `only`.
 */
module Values {
  import opened Wrappers

  /** A Python value. Nested dictionaries are kept as unordered maps. */
  datatype Value =
    | Null
    | Bool(b: bool)
    | Int(i: int)
    | Real(r: real)
    | Str(s: string)
    | List(items: seq<Value>)
    | Dict(fields: map<string, Value>)

  /** Python's truth test (`if v:`, `not v`, `v or w`). */
  predicate Truthy(v: Value) {
    match v
    case Null => false
    case Bool(b) => b
    case Int(i) => i != 0
    case Real(r) => r != 0.0
    case Str(s) => s != ""
    case List(items) => items != []
    case Dict(fields) => fields != map[]
  }

  /** The `**options` keyword arguments of one call. */
  type Options = map<string, Value>

  /** `options.get(key, default)` */
  function Get(options: Options, key: string, default: Value): Value {
    if key in options then options[key] else default
  }

  /** Python's falsy values are exactly `None`, `False`, zero, and the empty string, list and dict. */
  lemma FalsyValues(v: Value)
    ensures !Truthy(v) <==> v in {Null, Bool(false), Int(0), Real(0.0), Str(""), List([]), Dict(map[])}
  {
  }

  /**
    `options.pop(key, default)`: the value stored under `key`, or `default`
    when there is none; the options left behind lack `key` and keep every
    other entry.
   */
  function Pop(options: Options, key: string, default: Value): (r: (Value, Options))
    ensures key in options ==> r.0 == options[key]
    ensures key !in options ==> r.0 == default
    ensures key !in r.1
    ensures forall k :: k != key ==> (k in r.1 <==> k in options)
    ensures forall k :: k in r.1 ==> r.1[k] == options[k]
  {
    (Get(options, key, default), options - {key})
  }

  /** The strings of `parts`, if every part is one. */
  function Texts(parts: seq<Value>): (r: Option<seq<string>>)
    ensures r.Some? <==> forall i :: 0 <= i < |parts| ==> parts[i].Str?
    ensures r.Some? ==> |r.value| == |parts| && forall i :: 0 <= i < |parts| ==> r.value[i] == parts[i].s
  {
    if parts == [] then Some([])
    else if !parts[0].Str? then None
    else
      match Texts(parts[1..])
      case None => None
      case Some(rest) => Some([parts[0].s] + rest)
  }


  /** An insertion-ordered dictionary (or, without unique keys, a list of pairs). */
  type Entries = seq<(string, Value)>

  /** The keys of `e`, in order. */
  function KeysOf(e: Entries): seq<string> {
    seq(|e|, i requires 0 <= i < |e| => e[i].0)
  }

  predicate Distinct(s: seq<string>) {
    forall i, j :: 0 <= i < j < |s| ==> s[i] != s[j]
  }

  /** A Python dict never holds a key twice. */
  predicate UniqueKeys(e: Entries) {
    Distinct(KeysOf(e))
  }

  /** The position of the first occurrence of `k` in `ks`, or -1. */
  function IndexOf(ks: seq<string>, k: string): (i: int)
    ensures -1 <= i < |ks|
    ensures 0 <= i ==> ks[i] == k && k !in ks[..i]
    ensures i < 0 <==> k !in ks
  {
    if ks == [] then -1
    else if ks[0] == k then 0
    else
      var j := IndexOf(ks[1..], k);
      if j < 0 then -1 else (assert ks[1..][..j] == ks[1..j + 1]; j + 1)
  }

  /** `d.get(k)`: the value stored under `k`, if any. */
  function Find(e: Entries, k: string): (r: Option<Value>)
    ensures r.Some? <==> k in KeysOf(e)
    ensures r.Some? ==> (k, r.value) in e
  {
    var i := IndexOf(KeysOf(e), k);
    if i < 0 then None else Some(e[i].1)
  }

  /** Appending a key leaves the first occurrence of every other key where it was. */
  lemma {:induction false} IndexOfSnoc(ks: seq<string>, k: string, j: string)
    ensures IndexOf(ks + [k], j) == if j in ks then IndexOf(ks, j) else if j == k then |ks| else -1
  {
    if ks != [] {
      assert (ks + [k])[1..] == ks[1..] + [k];
      IndexOfSnoc(ks[1..], k, j);
    }
  }

  /** A new key goes last; the keys before it keep their values. */
  lemma AssignNew(e: Entries, k: string, v: Value)
    requires k !in KeysOf(e)
    ensures KeysOf(e + [(k, v)]) == KeysOf(e) + [k]
    ensures Find(e + [(k, v)], k) == Some(v)
    ensures forall j :: j != k ==> Find(e + [(k, v)], j) == Find(e, j)
    ensures UniqueKeys(e) ==> UniqueKeys(e + [(k, v)])
  {
    var r := e + [(k, v)];
    assert KeysOf(r) == KeysOf(e) + [k];
    IndexOfSnoc(KeysOf(e), k, k);
    forall j | j != k ensures Find(r, j) == Find(e, j) {
      IndexOfSnoc(KeysOf(e), k, j);
    }
    if UniqueKeys(e) {
      var ks := KeysOf(e);
      forall a, b | 0 <= a < b < |ks| + 1 ensures KeysOf(r)[a] != KeysOf(r)[b] {
        if b == |ks| { assert ks[a] in ks; }
      }
    }
  }

  /** An existing key keeps its place and takes the new value; no other key moves. */
  lemma AssignExisting(e: Entries, k: string, v: Value, i: int)
    requires 0 <= i < |e| && i == IndexOf(KeysOf(e), k)
    ensures KeysOf(e[i := (k, v)]) == KeysOf(e)
    ensures Find(e[i := (k, v)], k) == Some(v)
    ensures forall j :: j != k ==> Find(e[i := (k, v)], j) == Find(e, j)
  {
    var r := e[i := (k, v)];
    assert KeysOf(r) == KeysOf(e);
  }

  /**
    `d[k] = v`: an existing key keeps its place and takes the new value; a new
    key goes last. No other key changes.
   */
  function Assign(e: Entries, k: string, v: Value): (r: Entries)
    ensures KeysOf(r) == if k in KeysOf(e) then KeysOf(e) else KeysOf(e) + [k]
    ensures k !in KeysOf(e) ==> r == e + [(k, v)]
    ensures Find(r, k) == Some(v)
    ensures forall j :: j != k ==> Find(r, j) == Find(e, j)
    ensures UniqueKeys(e) ==> UniqueKeys(r)
  {
    var i := IndexOf(KeysOf(e), k);
    if i < 0 then
      AssignNew(e, k, v);
      e + [(k, v)]
    else
      AssignExisting(e, k, v, i);
      e[i := (k, v)]
  }

  /** `d.update(f)`: every entry of `f` is assigned in turn. */
  function UpdateWith(e: Entries, f: Entries): Entries
    decreases |f|
  {
    if f == [] then e else UpdateWith(Assign(e, f[0].0, f[0].1), f[1..])
  }

  /** After `d.update(f)` a key is present exactly when it was in `d` or is in `f`. */
  lemma {:induction false} UpdateWithHasKey(e: Entries, f: Entries, k: string)
    ensures k in KeysOf(UpdateWith(e, f)) <==> k in KeysOf(e) || k in KeysOf(f)
    decreases |f|
  {
    if f != [] {
      var e1 := Assign(e, f[0].0, f[0].1);
      UpdateWithHasKey(e1, f[1..], k);
      KeysOfCons(f);
    }
  }

  /** `d.update(f)` leaves the keys of `d` in their places and keeps them unique. */
  lemma {:induction false} UpdateWithKeepsOrder(e: Entries, f: Entries)
    ensures |e| <= |UpdateWith(e, f)| && KeysOf(UpdateWith(e, f))[..|e|] == KeysOf(e)
    ensures UniqueKeys(e) ==> UniqueKeys(UpdateWith(e, f))
    decreases |f|
  {
    if f != [] {
      var e1 := Assign(e, f[0].0, f[0].1);
      UpdateWithKeepsOrder(e1, f[1..]);
      var r := UpdateWith(e, f);
      assert r == UpdateWith(e1, f[1..]);
      assert |e| <= |e1| && KeysOf(e1)[..|e|] == KeysOf(e);
      assert KeysOf(r)[..|e|] == KeysOf(r)[..|e1|][..|e|];
    }
  }

  /** After `d.update(f)` the keys of `f` hold `f`'s values and every other key keeps its value. */
  lemma {:induction false} UpdateWithFind(e: Entries, f: Entries, k: string)
    requires UniqueKeys(f)
    ensures Find(UpdateWith(e, f), k) == if k in KeysOf(f) then Find(f, k) else Find(e, k)
    decreases |f|
  {
    if f != [] {
      var e1 := Assign(e, f[0].0, f[0].1);
      KeysOfCons(f);
      assert KeysOf(f[1..]) == KeysOf(f)[1..];
      assert UniqueKeys(f[1..]);
      UpdateWithFind(e1, f[1..], k);
      FindCons(f, k);
    }
  }

  /** Looking a key up in a non-empty dict: the first entry, or the rest. */
  lemma FindCons(e: Entries, k: string)
    requires e != []
    ensures Find(e, k) == if e[0].0 == k then Some(e[0].1) else Find(e[1..], k)
  {
    assert KeysOf(e[1..]) == KeysOf(e)[1..];
  }

  /**
    The entries of `source` whose keys are whitelisted, in whitelist order:
    the reference description of `only` followed by `.items()`.
   */
  function Select(source: Options, keys: seq<string>): (r: Entries)
    ensures forall p :: p in r ==> p.0 in keys && p.0 in source && p.1 == source[p.0]
    ensures forall k :: k in KeysOf(r) <==> k in keys && k in source
    ensures Distinct(keys) ==> UniqueKeys(r)
  {
    if keys == [] then []
    else
      var head := if keys[0] in source then [(keys[0], source[keys[0]])] else [];
      var rest := Select(source, keys[1..]);
      var r := head + rest;
      KeysOfAppend(head, rest);
      assert KeysOf(head) == if keys[0] in source then [keys[0]] else [];
      assert Distinct(keys) ==> keys[0] !in keys[1..];
      r
  }

  /**
    `only(source, *keys)`: the dict comprehension
    `{key: source[key] for key in keys if key in source}`, built left to right.
   */
  function Only(source: Options, keys: seq<string>): (r: Entries)
    ensures forall k :: k in KeysOf(r) <==> k in keys && k in source
    ensures forall k :: k in KeysOf(r) ==> Find(r, k) == Some(source[k])
    ensures UniqueKeys(r)
  {
    if keys == [] then []
    else
      var last := keys[|keys| - 1];
      var front := Only(source, keys[..|keys| - 1]);
      assert keys == keys[..|keys| - 1] + [last];
      if last in source then Assign(front, last, source[last]) else front
  }

  lemma KeysOfCons(e: Entries)
    requires e != []
    ensures KeysOf(e) == [e[0].0] + KeysOf(e[1..])
  {
    var a, b := KeysOf(e), [e[0].0] + KeysOf(e[1..]);
    assert |a| == |b|;
    forall i | 0 <= i < |a| ensures a[i] == b[i] {
      if i > 0 { assert b[i] == KeysOf(e[1..])[i - 1]; }
    }
  }

  lemma KeysOfAppend(a: Entries, b: Entries)
    ensures KeysOf(a + b) == KeysOf(a) + KeysOf(b)
  {
  }

  lemma AppendAssociative(a: Entries, b: Entries, c: Entries)
    ensures (a + b) + c == a + (b + c)
  {
  }

  /** Looking a key up in two dicts laid end to end: the first one that holds it wins. */
  lemma {:induction false} FindAppend(a: Entries, b: Entries, k: string)
    ensures Find(a + b, k) == if k in KeysOf(a) then Find(a, k) else Find(b, k)
  {
    if a == [] {
      assert a + b == b;
    } else {
      FindCons(a + b, k);
      FindCons(a, k);
      KeysOfCons(a);
      assert (a + b)[1..] == a[1..] + b;
      FindAppend(a[1..], b, k);
    }
  }

  /** Two dicts with no key in common laid end to end still hold each key once. */
  lemma UniqueKeysAppend(a: Entries, b: Entries)
    requires UniqueKeys(a) && UniqueKeys(b)
    requires forall k :: k in KeysOf(a) ==> k !in KeysOf(b)
    ensures UniqueKeys(a + b)
  {
    KeysOfAppend(a, b);
    var ka, kb := KeysOf(a), KeysOf(b);
    forall i, j | 0 <= i < j < |ka| + |kb| ensures (ka + kb)[i] != (ka + kb)[j] {
      if i < |ka| && j >= |ka| {
        assert ka[i] in ka && kb[j - |ka|] in kb;
      }
    }
  }

  lemma {:induction false} SelectSnoc(source: Options, keys: seq<string>, k: string)
    ensures Select(source, keys + [k]) == Select(source, keys) + (if k in source then [(k, source[k])] else [])
  {
    if keys != [] {
      var head := if keys[0] in source then [(keys[0], source[keys[0]])] else [];
      var tail := if k in source then [(k, source[k])] else [];
      assert (keys + [k])[1..] == keys[1..] + [k];
      assert Select(source, keys + [k]) == head + Select(source, keys[1..] + [k]);
      SelectSnoc(source, keys[1..], k);
      AppendAssociative(head, Select(source, keys[1..]), tail);
    }
  }

  /** With a whitelist that names each key once, `only(...).items()` lists the entries in whitelist order. */
  lemma {:induction false} OnlyFollowsWhitelistOrder(source: Options, keys: seq<string>)
    requires Distinct(keys)
    ensures Only(source, keys) == Select(source, keys)
  {
    if keys != [] {
      var last := keys[|keys| - 1];
      var front := keys[..|keys| - 1];
      assert keys == front + [last];
      OnlyFollowsWhitelistOrder(source, front);
      SelectSnoc(source, front, last);
      assert last !in front;
    }
  }

  /** Dropping keys that are not whitelisted (the popped options) does not change the selection. */
  lemma {:induction false} SelectIgnoresOtherKeys(source: Options, removed: set<string>, keys: seq<string>)
    requires forall k :: k in removed ==> k !in keys
    ensures Select(source - removed, keys) == Select(source, keys)
  {
    if keys != [] {
      assert keys[0] !in removed;
      SelectIgnoresOtherKeys(source, removed, keys[1..]);
    }
  }

  /** `only` applied after popping keys it does not whitelist, as the builders do. */
  lemma OnlyAfterPop(source: Options, removed: set<string>, keys: seq<string>)
    requires Distinct(keys)
    requires forall k :: k in removed ==> k !in keys
    ensures Only(source - removed, keys) == Select(source, keys)
  {
    OnlyFollowsWhitelistOrder(source - removed, keys);
    SelectIgnoresOtherKeys(source, removed, keys);
  }
}

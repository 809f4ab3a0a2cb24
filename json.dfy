/**
  JSON values as the Python code holds them after `json.loads`, and the few
  Python operations the core applies to them (subscript, `dict.get`, `in`,
  item assignment, iteration, `str.lower`, `str.join`), each with the
  exception Python raises where the operation does not apply.
 */
module PyJson {

  datatype Option<+T> = None | Some(value: T)

  /** A decoded JSON value. Objects are Python dicts: their keys keep insertion order. */
  datatype Json =
    | Null
    | Bool(b: bool)
    | Num(n: int)
    | Str(s: string)
    | Arr(items: seq<Json>)
    | Obj(fields: seq<(string, Json)>)

  /** The Python exceptions the modelled code can raise. */
  datatype Exc =
    | TypeError
    | KeyError
    | AttributeError
    | HttpError   // the HTTP client's post failed, or the answer's body did not decode as JSON

  /** A Python evaluation: the value it produced or the exception it raised. */
  datatype Result<+T> = Ok(value: T) | Raise(exc: Exc)

  type Fields = seq<(string, Json)>

  /** The keys of a dict, in insertion order. */
  function Keys(fs: Fields): (ks: seq<string>)
    ensures |ks| == |fs|
    ensures forall i :: 0 <= i < |fs| ==> ks[i] == fs[i].0
  {
    if fs == [] then [] else [fs[0].0] + Keys(fs[1..])
  }

  function KeySet(fs: Fields): set<string>
  {
    set k | k in Keys(fs)
  }

  /** `d.get(key)` on a dict whose fields are `fs`. */
  function Lookup(fs: Fields, key: string): Option<Json>
  {
    if fs == [] then None
    else if fs[0].0 == key then Some(fs[0].1)
    else Lookup(fs[1..], key)
  }

  /** `d.get(key)` finds a value exactly for the dict's keys, and the value is stored under that key. */
  lemma {:induction false} LookupSpec(fs: Fields, key: string)
    ensures Lookup(fs, key).None? <==> key !in Keys(fs)
    ensures Lookup(fs, key).Some? ==> (key, Lookup(fs, key).value) in fs
  {
    if fs != [] && fs[0].0 != key {
      LookupSpec(fs[1..], key);
      assert Keys(fs) == [fs[0].0] + Keys(fs[1..]);
    }
  }

  /** The first entry with a key is the one `Lookup` finds. */
  lemma {:induction false} LookupAt(fs: Fields, i: nat)
    requires i < |fs|
    requires forall j :: 0 <= j < i ==> fs[j].0 != fs[i].0
    ensures Lookup(fs, fs[i].0) == Some(fs[i].1)
  {
    if i > 0 {
      LookupAt(fs[1..], i - 1);
    }
  }

  /** `d[key] = v`: an existing key keeps its place, a new key goes last. */
  function Assign(fs: Fields, key: string, v: Json): (r: Fields)
    ensures |r| == if key in Keys(fs) then |fs| else |fs| + 1
  {
    if fs == [] then [(key, v)]
    else if fs[0].0 == key then [(key, v)] + fs[1..]
    else [fs[0]] + Assign(fs[1..], key, v)
  }

  /** After `d[key] = v`, `d[key]` is `v`, every other key reads as before, and the key order is kept. */
  lemma {:induction false} AssignSpec(fs: Fields, key: string, v: Json)
    ensures Lookup(Assign(fs, key, v), key) == Some(v)
    ensures forall k :: k != key ==> Lookup(Assign(fs, key, v), k) == Lookup(fs, k)
    ensures Keys(Assign(fs, key, v)) == if key in Keys(fs) then Keys(fs) else Keys(fs) + [key]
  {
    var r := Assign(fs, key, v);
    if fs == [] {
    } else if fs[0].0 == key {
      assert r[1..] == fs[1..];
      assert Keys(r) == [key] + Keys(fs[1..]);
    } else {
      var rest := Assign(fs[1..], key, v);
      AssignSpec(fs[1..], key, v);
      assert r[1..] == rest;
      assert Keys(r) == [fs[0].0] + Keys(rest);
      assert Keys(fs) == [fs[0].0] + Keys(fs[1..]);
    }
  }

  /** Python's `bool(j)`: null, false, 0 and empty strings, lists and dicts are falsy. */
  function Truthy(j: Json): (b: bool)
    ensures !b <==> j == Null || j == Bool(false) || j == Num(0) || j == Str("") || j == Arr([]) || j == Obj([])
  {
    match j
    case Null => false
    case Bool(b) => b
    case Num(n) => n != 0
    case Str(s) => s != []
    case Arr(xs) => xs != []
    case Obj(fs) => fs != []
  }

  /** `x[key]` with a string key. */
  function GetItem(x: Json, key: string): (r: Result<Json>)
    ensures r.Ok? <==> x.Obj? && key in Keys(x.fields)
    ensures r.Ok? ==> Lookup(x.fields, key) == Some(r.value)
    ensures r.Raise? ==> r.exc == if x.Obj? then KeyError else TypeError
  {
    match x
    case Obj(fs) =>
      LookupSpec(fs, key);
      (match Lookup(fs, key)
       case Some(v) => Ok(v)
       case None => Raise(KeyError))
    case _ => Raise(TypeError)  // lists and strings need integer indices; scalars are not subscriptable
  }

  /** `x.get(key, default)`: only dicts have a `get` method. */
  function GetOr(x: Json, key: string, default: Json): (r: Result<Json>)
    ensures r.Ok? <==> x.Obj?
    ensures r.Ok? ==> r.value == match Lookup(x.fields, key) case Some(v) => v case None => default
    ensures r.Raise? ==> r.exc == AttributeError
    ensures x.Obj? && key !in Keys(x.fields) ==> r == Ok(default)
  {
    match x
    case Obj(fs) =>
      LookupSpec(fs, key);
      (match Lookup(fs, key)
       case Some(v) => Ok(v)
       case None => Ok(default))
    case _ => Raise(AttributeError)
  }

  /** `x[key] = v` with a string key. */
  function SetItem(x: Json, key: string, v: Json): (r: Result<Json>)
    ensures r.Ok? <==> x.Obj?
    ensures r.Ok? ==> r.value == Obj(Assign(x.fields, key, v))
    ensures r.Raise? ==> r.exc == TypeError
  {
    match x
    case Obj(fs) => Ok(Obj(Assign(fs, key, v)))
    case _ => Raise(TypeError)  // lists need integer indices; strings and scalars do not support item assignment
  }

  /** `needle in x` with a string on the left. */
  function Contains(x: Json, needle: string): (r: Result<bool>)
    ensures r.Raise? <==> x.Null? || x.Bool? || x.Num?
    ensures r.Raise? ==> r.exc == TypeError
    ensures x.Obj? ==> r == Ok(needle in Keys(x.fields))
  {
    match x
    case Obj(fs) => Ok(needle in Keys(fs))
    case Arr(xs) => Ok(Str(needle) in xs)
    case Str(s) => Ok(IsSubstring(needle, s))
    case _ => Raise(TypeError)
  }

  /** The elements a `for` loop or `list.extend` draws from `x`. */
  function Iterate(x: Json): (r: Result<seq<Json>>)
    ensures r.Raise? <==> x.Null? || x.Bool? || x.Num?
    ensures x.Arr? ==> r == Ok(x.items)
  {
    match x
    case Arr(xs) => Ok(xs)
    case Str(s) => Ok(seq(|s|, i requires 0 <= i < |s| => Str([s[i]])))
    case Obj(fs) =>
      var ks := Keys(fs);
      Ok(seq(|ks|, i requires 0 <= i < |ks| => Str(ks[i])))
    case _ => Raise(TypeError)
  }

  predicate OccursAt(needle: string, hay: string, i: nat)
  {
    i + |needle| <= |hay| && hay[i..i + |needle|] == needle
  }

  /** Python's `needle in hay` on two strings. */
  predicate IsSubstring(needle: string, hay: string)
  {
    exists i :: 0 <= i <= |hay| && OccursAt(needle, hay, i)
  }

  lemma SubstringOfConcat(a: string, b: string, c: string)
    ensures IsSubstring(b, a + b + c)
  {
    assert (a + b + c)[|a|..|a| + |b|] == b;
    assert OccursAt(b, a + b + c, |a|);
  }

  /** The value stored under `key` when `j` is a dict that has it. */
  function Field(j: Json, key: string): Option<Json>
  {
    if j.Obj? then Lookup(j.fields, key) else None
  }

  function LowerChar(c: char): char
  {
    if 'A' <= c <= 'Z' then (c as int + 32) as char else c
  }

  /** `s.lower()`, restricted to ASCII letters. */
  function Lower(s: string): (r: string)
    ensures |r| == |s|
    ensures forall i :: 0 <= i < |s| ==> r[i] == LowerChar(s[i])
  {
    seq(|s|, i requires 0 <= i < |s| => LowerChar(s[i]))
  }

  function JoinStrings(sep: string, xs: seq<string>): string
  {
    if xs == [] then ""
    else if |xs| == 1 then xs[0]
    else xs[0] + sep + JoinStrings(sep, xs[1..])
  }

  /** A Python list of string literals. */
  function Strings(xs: seq<string>): (r: seq<Json>)
    ensures |r| == |xs| && forall i :: 0 <= i < |xs| ==> r[i] == Str(xs[i])
  {
    seq(|xs|, i requires 0 <= i < |xs| => Str(xs[i]))
  }

  predicate AllStrings(xs: seq<Json>)
  {
    forall i :: 0 <= i < |xs| ==> xs[i].Str?
  }

  /** `sep.join(x)`: every element drawn from `x` must be a string. */
  function Join(sep: string, x: Json): (r: Result<string>)
    ensures x.Arr? && AllStrings(x.items) ==>
      r == Ok(JoinStrings(sep, seq(|x.items|, i requires 0 <= i < |x.items| => x.items[i].s)))
  {
    match Iterate(x)
    case Raise(e) => Raise(e)
    case Ok(xs) =>
      if AllStrings(xs) then Ok(JoinStrings(sep, seq(|xs|, i requires 0 <= i < |xs| => xs[i].s)))
      else Raise(TypeError)
  }
}

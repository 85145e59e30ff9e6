/**
 * Values shared by the whole model: an Option type, the dynamically typed
 * values that flow through request data, error payloads, keyword arguments
 * and log records, and the few string operations the source applies to them
 * (`str.join`, `str.replace`).
 */
module Values {

  datatype Option<T> = None | Some(value: T)

  /** The outcome of a call that may raise: its value, or the exception it raised. */
  datatype Result<T, E> = Ok(value: T) | Err(error: E)

  /**
   * A Python value as it appears in request payloads, keyword arguments and
   * log-record attributes.  A dict keeps its keys in insertion order, as
   * Python's does.
   */
  datatype Value =
    | Null
    | Bool(b: bool)
    | Int(i: int)
    | Real(r: real)
    | Str(s: string)
    | List(items: seq<Value>)
    | Dict(entries: seq<(string, Value)>)
    | Object(pk: int)   // a model instance, known by its primary key

  /** Python truthiness: None, False, zero and empty containers are false, anything else true. */
  predicate Truthy(v: Value)
  {
    match v
    case Null => false
    case Bool(b) => b
    case Int(i) => i != 0
    case Real(r) => r != 0.0
    case Str(s) => s != ""
    case List(items) => items != []
    case Dict(entries) => entries != []
    case Object(_) => true
  }

  /** The keys of an ordered dict, in order. */
  function Keys(entries: seq<(string, Value)>): (ks: seq<string>)
    ensures |ks| == |entries|
    ensures forall i :: 0 <= i < |entries| ==> ks[i] == entries[i].0
  {
    if entries == [] then [] else [entries[0].0] + Keys(entries[1..])
  }

  /** `key in d` for an ordered dict. */
  predicate HasKey(entries: seq<(string, Value)>, key: string)
  {
    exists i :: 0 <= i < |entries| && entries[i].0 == key
  }

  /** A Python dict never holds a key twice. */
  predicate DistinctKeys(entries: seq<(string, Value)>)
  {
    forall i, j :: 0 <= i < j < |entries| ==> entries[i].0 != entries[j].0
  }

  /** `d.get(key)`: the value stored under `key`, if any (the first such entry). */
  function Get(entries: seq<(string, Value)>, key: string): (r: Option<Value>)
    ensures r.None? <==> !HasKey(entries, key)
    ensures r.Some? ==> exists i :: 0 <= i < |entries| && entries[i] == (key, r.value)
  {
    if entries == [] then None
    else if entries[0].0 == key then Some(entries[0].1)
    else
      var r := Get(entries[1..], key);
      assert r.Some? ==> exists i :: 0 <= i < |entries[1..]| && entries[1..][i] == (key, r.value);
      assert HasKey(entries[1..], key) ==> HasKey(entries, key) by {
        if HasKey(entries[1..], key) {
          var i :| 0 <= i < |entries[1..]| && entries[1..][i].0 == key;
          assert entries[i + 1].0 == key;
        }
      }
      r
  }

  /** `d.get(key, default)`. */
  function GetOr(entries: seq<(string, Value)>, key: string, default: Value): (v: Value)
    ensures HasKey(entries, key) ==> Get(entries, key) == Some(v)
    ensures !HasKey(entries, key) ==> v == default
  {
    match Get(entries, key)
    case Some(v) => v
    case None => default
  }

  /**
   * `d[key] = v`: an existing key keeps its place and takes the new
   * value; a new key goes to the end.
   */
  function SetItem(entries: seq<(string, Value)>, key: string, v: Value): seq<(string, Value)>
  {
    if entries == [] then [(key, v)]
    else if entries[0].0 == key then [(key, v)] + entries[1..]
    else [entries[0]] + SetItem(entries[1..], key, v)
  }

  /** After `d[key] = v`, `key` maps to `v` and every other key to what it did. */
  lemma {:induction false} SetItemGet(entries: seq<(string, Value)>, key: string, v: Value)
    ensures Get(SetItem(entries, key, v), key) == Some(v)
    ensures forall k :: k != key ==> Get(SetItem(entries, key, v), k) == Get(entries, k)
  {
    if entries != [] {
      assert entries == [entries[0]] + entries[1..];
      GetCons(entries[0], entries[1..]);
      if entries[0].0 == key {
        GetCons((key, v), entries[1..]);
      } else {
        SetItemGet(entries[1..], key, v);
        GetCons(entries[0], SetItem(entries[1..], key, v));
      }
    }
  }

  /** `d[key] = v` keeps the key order for a present key and appends a missing one. */
  lemma {:induction false} SetItemKeys(entries: seq<(string, Value)>, key: string, v: Value)
    ensures HasKey(entries, key) ==> Keys(SetItem(entries, key, v)) == Keys(entries)
    ensures !HasKey(entries, key) ==> SetItem(entries, key, v) == entries + [(key, v)]
  {
    if entries != [] {
      var r := SetItem(entries, key, v);
      assert entries == [entries[0]] + entries[1..];
      GetCons(entries[0], entries[1..]);
      assert Keys(entries) == [entries[0].0] + Keys(entries[1..]);
      if entries[0].0 == key {
        assert Keys(r) == [key] + Keys(entries[1..]);
      } else {
        var rest := SetItem(entries[1..], key, v);
        SetItemKeys(entries[1..], key, v);
        assert Keys(r) == [entries[0].0] + Keys(rest);
      }
    }
  }

  /** Lookup in a dict that starts with entry `e`. */
  lemma GetCons(e: (string, Value), rest: seq<(string, Value)>)
    ensures forall k :: Get([e] + rest, k) == if e.0 == k then Some(e.1) else Get(rest, k)
    ensures forall k :: HasKey([e] + rest, k) <==> e.0 == k || HasKey(rest, k)
  {
    var es := [e] + rest;
    assert es[1..] == rest;
    forall k ensures HasKey(es, k) <==> e.0 == k || HasKey(rest, k) {
      if HasKey(rest, k) {
        var i :| 0 <= i < |rest| && rest[i].0 == k;
        assert es[i + 1].0 == k;
      }
      if e.0 == k {
        assert es[0].0 == k;
      }
      if HasKey(es, k) && e.0 != k {
        var i :| 0 <= i < |es| && es[i].0 == k;
        assert rest[i - 1].0 == k;
      }
    }
  }

  /** `d.setdefault(key, v)`: a missing key is added at the end; a present one is left alone. */
  function SetDefault(entries: seq<(string, Value)>, key: string, v: Value): (r: seq<(string, Value)>)
    ensures HasKey(entries, key) ==> r == entries
    ensures !HasKey(entries, key) ==> r == entries + [(key, v)]
    ensures Get(r, key) == (if HasKey(entries, key) then Get(entries, key) else Some(v))
    ensures forall k :: k != key ==> Get(r, k) == Get(entries, k)
  {
    if HasKey(entries, key) then entries
    else
      SetItemGet(entries, key, v);
      SetItemKeys(entries, key, v);
      SetItem(entries, key, v)
  }

  /** `sep.join(parts)`. */
  function Join(sep: string, parts: seq<string>): string
  {
    if parts == [] then ""
    else if |parts| == 1 then parts[0]
    else parts[0] + sep + Join(sep, parts[1..])
  }

  /** `s.replace(from, to)` for one-character arguments. */
  function ReplaceChar(s: string, from: char, to: char): (r: string)
    ensures |r| == |s|
    ensures forall i :: 0 <= i < |s| ==> r[i] == (if s[i] == from then to else s[i])
  {
    if s == [] then []
    else [if s[0] == from then to else s[0]] + ReplaceChar(s[1..], from, to)
  }
}

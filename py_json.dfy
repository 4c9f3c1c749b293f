/**
  The Python objects that `json.loads` produces, and the few Python operations the analyzer
  applies to them: `d.get(key, default)`, `len(x)`, iteration, and the dict display
  `{**d, key: value}`. Each operation that Python would reject with an exception yields
  `Err` carrying the text of that exception.
 */
module PyJson {
  import opened Wrappers

  /**
    A decoded JSON value. A JSON object becomes a Python dict, whose members keep the order
    of their first appearance; a number with a fraction or an exponent becomes a float, kept
    here only by its literal. The type is wider than what `json.loads` returns: it admits a
    dict with a repeated key, where `Lookup` takes the first member, `Len` counts both and
    `Put` replaces only the first, while Python would keep a single key holding the last value.
    No lemma here relies on keys being distinct.
   */
  datatype Json =
    | JNull
    | JBool(b: bool)
    | JInt(i: int)
    | JFloat(literal: string)
    | JStr(s: string)
    | JArr(items: seq<Json>)
    | JObj(members: seq<Member>)

  datatype Member = Member(key: string, value: Json)

  /** The name Python gives the type of the decoded value, as it appears in error messages. */
  function TypeName(j: Json): string {
    match j
    case JNull => "NoneType"
    case JBool(_) => "bool"
    case JInt(_) => "int"
    case JFloat(_) => "float"
    case JStr(_) => "str"
    case JArr(_) => "list"
    case JObj(_) => "dict"
  }

  function Keys(members: seq<Member>): (ks: seq<string>)
    ensures |ks| == |members|
    ensures forall i :: 0 <= i < |members| ==> ks[i] == members[i].key
  {
    if |members| == 0 then [] else [members[0].key] + Keys(members[1..])
  }

  /** The value stored under `key`, if the dict has that key. */
  function Lookup(members: seq<Member>, key: string): (r: Option<Json>)
    ensures r.Some? <==> key in Keys(members)
    ensures r.Some? ==> Member(key, r.value) in members
  {
    if |members| == 0 then None
    else if members[0].key == key then Some(members[0].value)
    else Lookup(members[1..], key)
  }

  /** `j[key]` when `j` is a dict holding `key`, and `default` otherwise. */
  function FieldOr(j: Json, key: string, default: Json): Json {
    match j
    case JObj(members) =>
      (match Lookup(members, key)
       case Some(v) => v
       case None => default)
    case _ => default
  }

  /** `j.get(key, default)`: only a dict has a `get` method. */
  function GetOr(j: Json, key: string, default: Json): (r: Result<Json>)
    ensures r.Ok? <==> j.JObj?
    ensures r.Ok? ==> r.value == FieldOr(j, key, default)
    ensures r.Err? ==> r.error == "'" + TypeName(j) + "' object has no attribute 'get'"
  {
    if j.JObj? then Ok(FieldOr(j, key, default))
    else Err("'" + TypeName(j) + "' object has no attribute 'get'")
  }

  /** The values that have a length in Python: strings, lists and dicts. */
  predicate Sized(j: Json) {
    j.JStr? || j.JArr? || j.JObj?
  }

  /** `len(j)`: the number of characters, items or keys. */
  function Len(j: Json): (r: Result<nat>)
    ensures r.Ok? <==> Sized(j)
    ensures r.Err? ==> r.error == "object of type '" + TypeName(j) + "' has no len()"
  {
    match j
    case JStr(s) => Ok(|s|)
    case JArr(items) => Ok(|items|)
    case JObj(members) => Ok(|members|)
    case _ => Err("object of type '" + TypeName(j) + "' has no len()")
  }

  /** The keys of a dict, each as the string value a `for` loop over the dict yields. */
  function KeyStrings(members: seq<Member>): (r: seq<Json>)
    ensures |r| == |members|
    ensures forall i :: 0 <= i < |r| ==> r[i] == JStr(members[i].key)
  {
    if |members| == 0 then [] else [JStr(members[0].key)] + KeyStrings(members[1..])
  }

  /**
    The values a Python `for` loop over `j` yields: the one-character strings of a string,
    the items of a list, the keys of a dict; any other value is not iterable.
   */
  function Iter(j: Json): (r: Result<seq<Json>>)
    ensures r.Ok? <==> Sized(j)
    ensures r.Ok? ==> |r.value| == Len(j).value
    ensures r.Err? ==> r.error == "'" + TypeName(j) + "' object is not iterable"
  {
    match j
    case JStr(s) => Ok(seq(|s|, i requires 0 <= i < |s| => JStr([s[i]])))
    case JArr(items) => Ok(items)
    case JObj(members) => Ok(KeyStrings(members))
    case _ => Err("'" + TypeName(j) + "' object is not iterable")
  }

  /**
    The dict display `{**d, key: v}`: every member of `d` in its order, with the value under
    `key` replaced in place when `d` has that key, and `key: v` appended when it does not.
   */
  function Put(members: seq<Member>, key: string, v: Json): (r: seq<Member>)
    ensures |r| == if key in Keys(members) then |members| else |members| + 1
  {
    if |members| == 0 then [Member(key, v)]
    else if members[0].key == key then [Member(key, v)] + members[1..]
    else [members[0]] + Put(members[1..], key, v)
  }

  /**
    After `{**d, key: v}` the new dict maps `key` to `v`, agrees with `d` on every other key,
    and lists its keys in the order of `d`, with `key` last when `d` lacked it.
   */
  lemma {:induction false} PutSpec(members: seq<Member>, key: string, v: Json, k: string)
    ensures Lookup(Put(members, key, v), key) == Some(v)
    ensures k != key ==> Lookup(Put(members, key, v), k) == Lookup(members, k)
    ensures Keys(Put(members, key, v)) ==
      if key in Keys(members) then Keys(members) else Keys(members) + [key]
  {
    var r := Put(members, key, v);
    if |members| > 0 {
      var m, rest := members[0], members[1..];
      assert Keys(members) == [m.key] + Keys(rest);
      if m.key == key {
        assert r[1..] == rest;
        assert Keys(r) == [key] + Keys(rest);
      } else {
        PutSpec(rest, key, v, k);
        assert r[1..] == Put(rest, key, v);
        assert Keys(r) == [m.key] + Keys(Put(rest, key, v));
      }
    }
  }
}

/** Parsed JSON values as Python holds them after `json.load`, with the few Python operations
    the device loaders apply to them: `dict.get`, truthiness, iteration, `str()`, and the
    configuration files as a map from path to document. Objects keep their keys in file
    order, as Python dicts do. */
module JsonValues {
  import opened Wrappers
  import opened Strings

  datatype Json =
    | JNull
    | JBool(b: bool)
    | JInt(i: int)
    | JStr(s: string)
    | JList(items: seq<Json>)
    | JObj(fields: seq<(string, Json)>)

  /** The keys of an object's field list, in order. */
  function Keys(fields: seq<(string, Json)>): (r: seq<string>)
    ensures |r| == |fields| && forall k :: 0 <= k < |fields| ==> r[k] == fields[k].0
  {
    seq(|fields|, k requires 0 <= k < |fields| => fields[k].0)
  }

  /** Entry `k` is the last one with `key`. */
  predicate LastWith(fields: seq<(string, Json)>, k: int, key: string)
  {
    0 <= k < |fields| && fields[k].0 == key && forall j :: k < j < |fields| ==> fields[j].0 != key
  }

  /** The value stored under `key`. A JSON object that repeats a key loads as a dict that
      keeps the last of its values, so the search runs from the end. */
  function Lookup(fields: seq<(string, Json)>, key: string): (r: Option<Json>)
    ensures r.None? <==> key !in Keys(fields)
    ensures r.Some? ==> exists k :: LastWith(fields, k, key) && fields[k].1 == r.value
  {
    if |fields| == 0 then None
    else
      var last := |fields| - 1;
      assert Keys(fields) == Keys(fields[..last]) + [fields[last].0];
      if fields[last].0 == key then Some(fields[last].1)
      else
        var r := Lookup(fields[..last], key);
        assert r.Some? ==> exists k :: LastWith(fields, k, key) && fields[k].1 == r.value by {
          if r.Some? {
            var k :| LastWith(fields[..last], k, key) && fields[..last][k].1 == r.value;
            assert LastWith(fields, k, key);
          }
        }
        r
  }

  /** In a field list whose keys are distinct, each key finds its own entry. */
  lemma {:induction false} LookupDistinct(fields: seq<(string, Json)>, k: nat)
    requires k < |fields|
    requires forall i, j :: 0 <= i < j < |fields| ==> fields[i].0 != fields[j].0
    ensures Lookup(fields, fields[k].0) == Some(fields[k].1)
  {
    var last := |fields| - 1;
    if k < last {
      assert fields[k].0 != fields[last].0;
      assert fields[..last][k] == fields[k];
      LookupDistinct(fields[..last], k);
    }
  }

  /** `value.get(key)` on an object; AttributeError on anything else. */
  function Get(value: Json, key: string): (r: Result<Option<Json>>)
    ensures r.Err? <==> !value.JObj?
    ensures r.Err? ==> r.error == AttributeError
    ensures r.Ok? ==> r.value == Lookup(value.fields, key)
  {
    if value.JObj? then Ok(Lookup(value.fields, key)) else Err(AttributeError)
  }

  /** `value.get(key, default)`. */
  function GetOr(value: Json, key: string, default: Json): (r: Result<Json>)
    ensures r.Err? <==> !value.JObj?
    ensures r.Ok? && key in Keys(value.fields) ==> Lookup(value.fields, key) == Some(r.value)
    ensures r.Ok? && key !in Keys(value.fields) ==> r.value == default
  {
    match Get(value, key)
    case Err(e) => Err(e)
    case Ok(v) => Ok(if v.Some? then v.value else default)
  }

  /** Python truthiness: null, false, 0, and empty strings, lists and dicts are false. */
  predicate Truthy(value: Json)
  {
    match value
    case JNull => false
    case JBool(b) => b
    case JInt(i) => i != 0
    case JStr(s) => s != ""
    case JList(items) => items != []
    case JObj(fields) => fields != []
  }

  /** `not x` for an optional value: a missing value (None) is falsy too. */
  predicate Present(value: Option<Json>)
  {
    value.Some? && Truthy(value.value)
  }

  /** `for item in value`: a list gives its items, a string its characters and a dict its
      keys, as strings; numbers, booleans and null are not iterable. */
  function Iterate(value: Json): (r: Result<seq<Json>>)
    ensures r.Err? <==> value.JNull? || value.JBool? || value.JInt?
    ensures r.Err? ==> r.error == TypeError
    ensures value.JList? ==> r == Ok(value.items)
    ensures value.JStr? ==> r.Ok? && |r.value| == |value.s|
    ensures value.JObj? ==> r.Ok? && |r.value| == |value.fields|
  {
    match value
    case JList(items) => Ok(items)
    case JStr(s) => Ok(seq(|s|, k requires 0 <= k < |s| => JStr([s[k]])))
    case JObj(fields) => Ok(seq(|fields|, k requires 0 <= k < |fields| => JStr(fields[k].0)))
    case _ => Err(TypeError)
  }

  /** `str(value)`: strings as they are, everything else as its repr. */
  function Str(value: Json): string
  {
    if value.JStr? then value.s else Repr(value)
  }

  /** `repr(value)` with strings in single quotes; escaping of quotes, backslashes and
      unprintable characters is not modelled. */
  function Repr(value: Json): string
    decreases value, 1
  {
    match value
    case JNull => "None"
    case JBool(b) => if b then "True" else "False"
    case JInt(i) => IntToString(i)
    case JStr(s) => "'" + s + "'"
    case JList(items) => "[" + Join(ReprItems(value, items), ", ") + "]"
    case JObj(fields) => "{" + Join(ReprFields(value, fields), ", ") + "}"
  }

  function ReprItems(parent: Json, items: seq<Json>): (r: seq<string>)
    requires forall k :: 0 <= k < |items| ==> items[k] < parent
    ensures |r| == |items|
    decreases parent, 0, |items|
  {
    if |items| == 0 then [] else [Repr(items[0])] + ReprItems(parent, items[1..])
  }

  function ReprFields(parent: Json, fields: seq<(string, Json)>): (r: seq<string>)
    requires forall k :: 0 <= k < |fields| ==> fields[k].1 < parent
    ensures |r| == |fields|
    decreases parent, 0, |fields|
  {
    if |fields| == 0 then []
    else ["'" + fields[0].0 + "': " + Repr(fields[0].1)] + ReprFields(parent, fields[1..])
  }

  /** The configuration files: each existing path holds the document `json.load` reads from it. */
  class FileStore {
    var files: map<string, Json>

    constructor (files: map<string, Json>)
      ensures this.files == files
    {
      this.files := files;
    }

    /** `write_json(path, data)`: the file is created or replaced. */
    method Write(path: string, data: Json)
      modifies this
      ensures files == old(files)[path := data]
    {
      files := files[path := data];
    }
  }

  /** A Python list object, shared by reference between caller and callee. */
  class ListRef<T> {
    var items: seq<T>

    constructor (items: seq<T>)
      ensures this.items == items
    {
      this.items := items;
    }

    /** `list.append(x)`. */
    method Append(x: T)
      modifies this
      ensures items == old(items) + [x]
    {
      items := items + [x];
    }
  }
}

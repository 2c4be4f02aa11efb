/** JSON documents as `json.loads` returns them. Objects are association lists
    so that the iteration order of a Python dict is part of the value. */
module JsonValues {
  import opened Errors
  import opened Text

  datatype Json =
    | JNull
    | JBool(b: bool)
    | JNum(n: int)
    | JStr(s: string)
    | JArr(items: seq<Json>)
    | JObj(members: seq<(string, Json)>)

  /** `d.keys()` in iteration order. */
  function Keys(members: seq<(string, Json)>): (r: seq<string>)
    ensures |r| == |members|
    ensures forall i :: 0 <= i < |members| ==> r[i] == members[i].0
  {
    seq(|members|, i requires 0 <= i < |members| => members[i].0)
  }

  /** `d[k] for k in d.keys()`, in iteration order. */
  function Values(members: seq<(string, Json)>): (r: seq<Json>)
    ensures |r| == |members|
    ensures forall i :: 0 <= i < |members| ==> r[i] == members[i].1
  {
    seq(|members|, i requires 0 <= i < |members| => members[i].1)
  }

  /** `d.get(k)`: the value bound to `k`. A dict never holds a key twice;
      the first binding is the one taken. */
  function Lookup(members: seq<(string, Json)>, k: string): (r: Option<Json>)
    ensures r.Some? <==> k in Keys(members)
    ensures r.Some? ==> members[Find(Keys(members), k)] == (k, r.value)
  {
    var i := Find(Keys(members), k);
    if i < |members| then Some(members[i].1) else None
  }

  /** The value a pandas cell takes for key `k` of a record: the bound value,
      or a missing value (NaN). */
  function LookupOr(members: seq<(string, Json)>, k: string): Json
  {
    match Lookup(members, k)
    case Some(v) => v
    case None => JNull
  }

  /** `key in data`, for every kind of value `data` can be: a dict tests its
      keys, a string its substrings, a list its elements; anything else
      raises TypeError. */
  function PyIn(data: Json, key: string): (r: Result<bool>)
    ensures data.JObj? ==> r == Ok(key in Keys(data.members))
    ensures r.Err? <==> !(data.JObj? || data.JStr? || data.JArr?)
  {
    match data
    case JObj(m) => Ok(key in Keys(m))
    case JStr(s) => Ok(IsSubstring(key, s))
    case JArr(xs) => Ok(JStr(key) in xs)
    case _ => Err(TypeError)
  }

  /** `data[key]` with a string key: a dict looks the key up (KeyError when
      absent); strings and lists take only integer indices, and the other
      values are not subscriptable, so those raise TypeError. */
  function PyIndex(data: Json, key: string): (r: Result<Json>)
    ensures r.Ok? <==> data.JObj? && key in Keys(data.members)
    ensures r.Ok? ==> Lookup(data.members, key) == Some(r.value)
    ensures data.JObj? && key !in Keys(data.members) ==> r == Err(KeyError(key))
  {
    match data
    case JObj(m) =>
      (match Lookup(m, key)
       case Some(v) => Ok(v)
       case None => Err(KeyError(key)))
    case _ => Err(TypeError)
  }
}

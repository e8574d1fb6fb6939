/** Decoded JSON as Python holds it after `json.loads` or after the Calendar client decodes a response:
    dicts, lists, strings, integers, booleans and `None` (JSON `null` and Python's `None` are one value). */
module Json {
  import opened Wrappers

  datatype Value =
    | Null
    | Bool(b: bool)
    | Int(i: int)
    | Str(s: string)
    | Arr(items: seq<Value>)
    | Obj(fields: map<string, Value>)

  /** `d.get(key)`: the stored value, or `None` when the key is absent. */
  function Get(d: map<string, Value>, key: string): (v: Value)
    ensures key !in d ==> v == Null
    ensures key in d ==> v == d[key]
  {
    if key in d then d[key] else Null
  }

  /** `d.get(key, default)`: the stored value (even when it is `None`), or `default` when the key is absent. */
  function GetOr(d: map<string, Value>, key: string, default: Value): (v: Value)
    ensures key !in d ==> v == default
    ensures key in d ==> v == d[key]
  {
    if key in d then d[key] else default
  }

  predicate AllDicts(xs: seq<Value>) {
    forall k :: 0 <= k < |xs| ==> xs[k].Obj?
  }

  /** The elements a Python `for` loop over `v` yields, when each of them is a dict that can be asked `.get`.
      A list yields its elements; an empty string and an empty dict yield nothing. A non-empty string or dict
      yields strings (characters or keys), which have no `.get`, and `None`, a boolean or an integer cannot be
      iterated at all: on all of those, and on a list holding a non-dict, the loop raises, written `None` here. */
  function Dicts(v: Value): (r: Option<seq<map<string, Value>>>)
    ensures r.Some? <==> (v.Arr? && AllDicts(v.items)) || v == Str([]) || v == Obj(map[])
    ensures r.Some? && v.Arr? ==>
              |r.value| == |v.items| && forall k :: 0 <= k < |v.items| ==> v.items[k] == Obj(r.value[k])
    ensures r.Some? && !v.Arr? ==> r.value == []
  {
    match v
    case Arr(xs) =>
      if AllDicts(xs) then Some(seq(|xs|, k requires 0 <= k < |xs| => xs[k].fields)) else None
    case Str(s) => if s == [] then Some([]) else None
    case Obj(m) => if m == map[] then Some([]) else None
    case _ => None
  }
}

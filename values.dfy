/** The Python values that cross the boundaries of the agent: call outcomes
    (a call either returns a value or raises), and the JSON-like objects that
    tools take as arguments and return as results. */
module PyValues {

  datatype Option<+T> = None | Some(value: T)

  /** What a Python call does: it returns a value, or it raises an exception,
      kept here as the exception's string form `str(e)`. */
  datatype Outcome<+T> = Returned(value: T) | Raised(error: string)

  /** A Python value as the tools see it (`None`, `bool`, `int`, `str`,
      `list`, `dict` with string keys). */
  datatype Value =
    | Null
    | Bool(b: bool)
    | Int(i: int)
    | Str(s: string)
    | List(items: seq<Value>)
    | Dict(entries: map<string, Value>)

  /** The keyword arguments of a tool call: a dict from argument name to value. */
  type Args = map<string, Value>

  /** `d.get(key)`: the value stored under `key`, or `None` when it is absent. */
  function GetOrNull(d: Args, key: string): (v: Value)
    ensures key in d ==> v == d[key]
    ensures key !in d ==> v == Null
  {
    if key in d then d[key] else Null
  }

  /** `d.pop(key, None)` as seen from the dict afterwards: the key is gone and
      every other entry is as it was. */
  function Without(d: Args, key: string): (r: Args)
    ensures key !in r
    ensures r.Keys == d.Keys - {key}
    ensures forall k :: k in r ==> r[k] == d[k]
  {
    d - {key}
  }
}

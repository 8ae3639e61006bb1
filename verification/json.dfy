/** The decoded page data: the generic value `json.loads` produces, with
    Python's truthiness, `dict.get` and the `or` operator over it. */
module Json {
  import opened Wrappers

  /** HTTP status the server reports when the handler raises an exception it
      does not convert itself (AttributeError, TypeError, KeyError, a
      response-validation error): an internal server error. */
  const ServerError: int := 500

  datatype JsonValue =
    | Null
    | Bool(b: bool)
    | Num(n: int)
    | Str(s: string)
    | Arr(items: seq<JsonValue>)
    | Obj(fields: map<string, JsonValue>)

  /** Python truthiness: None, False, 0, "", [] and {} are false. */
  predicate Truthy(v: JsonValue) {
    match v
    case Null => false
    case Bool(b) => b
    case Num(n) => n != 0
    case Str(s) => s != ""
    case Arr(items) => items != []
    case Obj(fields) => fields != map[]
  }

  const EmptyObj: JsonValue := Obj(map[])
  const EmptyArr: JsonValue := Arr([])

  /** `d.get(key)` on a dict: None when the key is absent. */
  function Get(d: map<string, JsonValue>, key: string): JsonValue {
    if key in d then d[key] else Null
  }

  /** `d.get(key, default)` on a dict. */
  function GetOr(d: map<string, JsonValue>, key: string, default: JsonValue): JsonValue {
    if key in d then d[key] else default
  }

  /** `v.get(key, default)` on an arbitrary decoded value: only a dict has a
      `get` method, anything else raises AttributeError. */
  function Lookup(v: JsonValue, key: string, default: JsonValue := Null): (r: Result<JsonValue, int>)
    ensures r.Err? <==> !v.Obj?
    ensures r.Err? ==> r.error == ServerError
    ensures r.Ok? && key in v.fields ==> r.value == v.fields[key]
    ensures r.Ok? && key !in v.fields ==> r.value == default
  {
    if v.Obj? then Ok(GetOr(v.fields, key, default)) else Err(ServerError)
  }

  /** Python's `a or b`: `a` when it is truthy, otherwise `b`. */
  function Or(a: JsonValue, b: JsonValue): (r: JsonValue)
    ensures r == a || r == b
    ensures Truthy(r) <==> Truthy(a) || Truthy(b)
    ensures Truthy(a) ==> r == a
    ensures !Truthy(a) ==> r == b
  {
    if Truthy(a) then a else b
  }

  /** Reference reading of a chain `c0 or c1 or ... or default`: the first
      truthy candidate, or the default when every candidate is falsy. */
  function FirstTruthy(candidates: seq<JsonValue>, default: JsonValue): (r: JsonValue)
    ensures (forall i :: 0 <= i < |candidates| ==> !Truthy(candidates[i])) ==> r == default
    ensures (exists i :: 0 <= i < |candidates| && Truthy(candidates[i])) ==>
              exists i :: 0 <= i < |candidates| && r == candidates[i] && Truthy(r)
                          && forall j :: 0 <= j < i ==> !Truthy(candidates[j])
  {
    if candidates == [] then default
    else Or(candidates[0], FirstTruthy(candidates[1..], default))
  }
}

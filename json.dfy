/** JSON values as Python's `json` module hands them to the client, and the few
    Python operations the client applies to them (`in`, `[]`, `dict.get`,
    truthiness, `isinstance(x, (int, float))`, `int(x)`), each with the error
    Python raises when the value has the wrong shape. */
module JsonValues {
  import opened Results

  /** A decoded JSON document. Integers and floats are both `Num`; a JSON object
      is a `map` (Python's insertion order is not modelled). */
  datatype Json =
    | Null
    | Bool(b: bool)
    | Num(n: real)
    | Str(s: string)
    | Arr(items: seq<Json>)
    | Obj(fields: map<string, Json>)

  /** The Python exceptions an ill-shaped value provokes. */
  datatype PyFault = TypeError | AttributeError | KeyError

  /** Python truthiness of a decoded JSON value. */
  predicate Truthy(j: Json) {
    match j
    case Null => false
    case Bool(b) => b
    case Num(n) => n != 0.0
    case Str(s) => s != ""
    case Arr(items) => items != []
    case Obj(fields) => fields != map[]
  }

  /** `isinstance(j, (int, float))`; Python's `bool` is a subclass of `int`. */
  predicate IsNumber(j: Json) {
    j.Num? || j.Bool?
  }

  /** The numeric value of a number, `True` being 1 and `False` 0. */
  function NumberValue(j: Json): real
    requires IsNumber(j)
  {
    match j
    case Num(n) => n
    case Bool(b) => if b then 1.0 else 0.0
  }

  /** Python's `int(x)` on a float: truncation toward zero (Dafny's `.Floor`
      rounds toward negative infinity). */
  function Truncate(x: real): (r: int)
    ensures 0.0 <= x ==> r as real <= x < r as real + 1.0
    ensures x < 0.0 ==> r as real - 1.0 < x <= r as real
  {
    if x >= 0.0 then x.Floor else -((-x).Floor)
  }

  /** `int(j)` for a number. */
  function Count(j: Json): int
    requires IsNumber(j)
  {
    Truncate(NumberValue(j))
  }

  /** `needle in hay` on two strings. */
  predicate IsSubstring(needle: string, hay: string)
    decreases |hay|
  {
    needle <= hay || (hay != [] && IsSubstring(needle, hay[1..]))
  }

  /** Python's `key in container`: a key test on a dict, an element test on a
      list, a substring test on a string, and a `TypeError` otherwise. */
  function Contains(container: Json, key: string): (r: Result<bool, PyFault>)
    ensures r.Ok? <==> container.Obj? || container.Arr? || container.Str?
    ensures container.Obj? ==> r == Ok(key in container.fields)
    ensures container.Arr? ==> r == Ok(Str(key) in container.items)
    ensures container.Str? ==> r == Ok(IsSubstring(key, container.s))
    ensures r.Err? ==> r.error == TypeError
  {
    match container
    case Obj(fields) => Ok(key in fields)
    case Arr(items) => Ok(Str(key) in items)
    case Str(s) => Ok(IsSubstring(key, s))
    case _ => Err(TypeError)
  }

  /** Python's `container[key]` with a string key: only a dict holding the key
      answers; a dict without it raises `KeyError`, anything else `TypeError`. */
  function Subscript(container: Json, key: string): (r: Result<Json, PyFault>)
    ensures r.Ok? <==> container.Obj? && key in container.fields
    ensures r.Ok? ==> r.value == container.fields[key]
    ensures r == Err(KeyError) <==> container.Obj? && key !in container.fields
    ensures !container.Obj? ==> r == Err(TypeError)
  {
    match container
    case Obj(fields) => if key in fields then Ok(fields[key]) else Err(KeyError)
    case _ => Err(TypeError)
  }

  /** Python's `container.get(key, default)`: only a dict has `get`. */
  function DictGet(container: Json, key: string, default: Json): (r: Result<Json, PyFault>)
    ensures r.Ok? <==> container.Obj?
    ensures r.Ok? ==> r.value == if key in container.fields then container.fields[key] else default
    ensures r.Err? ==> r.error == AttributeError
  {
    match container
    case Obj(fields) => Ok(GetOr(fields, key, default))
    case _ => Err(AttributeError)
  }

  /** `d.get(key, default)` on a dict known to be one. */
  function GetOr(d: map<string, Json>, key: string, default: Json): Json
  {
    if key in d then d[key] else default
  }

  /** `d.get(key)` on a dict known to be one: a missing key reads as `None`. */
  function Lookup(d: map<string, Json>, key: string): Json
  {
    GetOr(d, key, Null)
  }
}

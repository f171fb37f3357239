/** The values the backend handles: Python values as they travel between the
    request parsers, the route code and MongoDB documents (backend/db.py,
    backend/routes/auth.py, backend/routes/reports.py). A document is a
    dictionary from keys to values; key order is not modelled. */
module Bson {
  import opened Wrappers

  /** `None`, a bool, a str, a float, a `datetime` (as a timestamp in seconds),
      an `ObjectId` (as its lower-case hexadecimal text), a list or a dict. */
  datatype Value =
    | Null
    | Bool(b: bool)
    | Str(s: string)
    | Num(x: real)
    | Date(t: int)
    | Oid(hex: string)
    | Arr(items: seq<Value>)
    | Obj(fields: map<string, Value>)

  type Doc = map<string, Value>

  /** `d.get(key)`: the value, or `None` when the key is absent. */
  function Get(d: Doc, key: string): Value {
    if key in d then d[key] else Null
  }

  /** Python truthiness: `None`, `False`, the empty string, zero and empty
      containers are false; dates and object ids are true. */
  predicate Truthy(v: Value) {
    match v
    case Null => false
    case Bool(b) => b
    case Str(s) => s != ""
    case Num(x) => x != 0.0
    case Date(_) => true
    case Oid(_) => true
    case Arr(items) => items != []
    case Obj(fields) => fields != map[]
  }

  /** An optional text as a value: `None` or the str. */
  function OptStr(o: Option<string>): (v: Value)
    ensures o.None? <==> v == Null
    ensures o.Some? ==> v == Str(o.value)
  {
    if o.Some? then Str(o.value) else Null
  }

  /** `str(v)`: an object id prints as its hex text, a str as itself, `None` and
      the bools by name; the text of the remaining kinds (floats, dates,
      containers) is given by `repr`. */
  function ToStr(v: Value, repr: Value -> string): (r: string)
    ensures v.Oid? ==> r == v.hex
    ensures v.Str? ==> r == v.s
    ensures v.Null? ==> r == "None"
  {
    match v
    case Oid(hex) => hex
    case Str(s) => s
    case Null => "None"
    case Bool(b) => if b then "True" else "False"
    case _ => repr(v)
  }

  /** An `HTTPException`: the status code and the `detail` the client receives. */
  datatype HttpException = HttpException(statusCode: int, detail: string)

  /** The answer to an exception the route does not catch. */
  const InternalServerError := HttpException(500, "Internal Server Error")
}

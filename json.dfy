/**
 * The values held by the dictionaries that the record serialisers produce and
 * consume, and the lenient `dict.get(key, default)` lookups used to read them.
 */
module Json {
  import opened Wrappers

  /** A JSON-like value: what a Python dictionary built for `json.dumps` may hold. */
  datatype Value =
    | Null
    | Bool(b: bool)
    | Int(i: int)
    | Str(s: string)
    | Arr(items: seq<Value>)
    | Obj(fields: map<string, Value>)

  /** A Python `dict` with string keys. */
  type Dict = map<string, Value>

  /** `d.get(key, default)` for a string-typed field. */
  function GetStr(d: Dict, key: string, default: string): string
  {
    if key in d && d[key].Str? then d[key].s else default
  }

  /** `d.get(key, default)` for an integer-typed field. */
  function GetInt(d: Dict, key: string, default: int): int
  {
    if key in d && d[key].Int? then d[key].i else default
  }

  /** `d.get(key, default)` for a boolean-typed field. */
  function GetBool(d: Dict, key: string, default: bool): bool
  {
    if key in d && d[key].Bool? then d[key].b else default
  }

  /** `d.get(key)` for an `Optional[str]` field: a missing key and `None` both give `None`. */
  function GetOptStr(d: Dict, key: string): Option<string>
  {
    if key in d && d[key].Str? then Some(d[key].s) else None
  }

  /** `d.get(key, {})` for a nested dictionary. */
  function GetDict(d: Dict, key: string): Dict
  {
    if key in d && d[key].Obj? then d[key].fields else map[]
  }

  /** `d.get(key, [])` for a nested list. */
  function GetList(d: Dict, key: string): seq<Value>
  {
    if key in d && d[key].Arr? then d[key].items else []
  }

  /** How an `Optional[str]` is stored: `None` as JSON null. */
  function OptStr(o: Option<string>): Value
  {
    match o
    case None => Null
    case Some(s) => Str(s)
  }
}

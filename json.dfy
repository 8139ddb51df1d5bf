/** Decoded JSON values as the Python code handles them: objects are
    `dict[str, Any]`, JSON `null` is `None`. Floating-point numbers are not
    part of this model. */
module Json {
  import opened Wrappers
  import Strings

  datatype Value =
    | Null
    | Bool(b: bool)
    | Int(i: int)
    | Str(s: string)
    | Arr(items: seq<Value>)
    | Obj(fields: map<string, Value>)

  /** A JSON object: a request body, a stored record, a tool's arguments. */
  type Record = map<string, Value>

  /** `record.get(key)`: `None` stands for the missing key. */
  function GetOrNull(record: Record, key: string): Value {
    GetOr(record, key, Null)
  }

  /** How a value reads when interpolated into an f-string (`str(value)`).
      Containers are rendered as a fixed placeholder, not as Python's repr. */
  function Text(v: Value): string {
    match v
    case Null => "None"
    case Bool(b) => if b then "True" else "False"
    case Int(i) => Strings.IntText(i)
    case Str(s) => s
    case Arr(_) => "[...]"
    case Obj(_) => "{...}"
  }
}

/** Values shared by every component of the model. */
module Prelude {

  datatype Option<+T> = None | Some(value: T) {
    function GetOr(default: T): T {
      if Some? then value else default
    }
  }

  /** A value of an event payload or of a stored document. */
  datatype Json =
    | JNull
    | JBool(flag: bool)
    | JInt(number: int)
    | JFloat(fraction: real)
    | JText(text: string)
    | JList(items: seq<Json>)
    | JDict(entries: map<string, Json>)

  /** Lookup with the default a Python `dict.get` has. */
  function Get(entries: map<string, Json>, key: string): Json {
    if key in entries then entries[key] else JNull
  }

  /** What `isinstance(value, int)` accepts, booleans included. */
  function AsInt(value: Json): Option<int> {
    match value
    case JInt(n) => Some(n)
    case JBool(b) => Some(if b then 1 else 0)
    case _ => None
  }

  function Min(a: real, b: real): real {
    if a < b then a else b
  }
}

/**
 * Python values as the core sees them: JSON-like data carried in tool
 * arguments, truthiness, `str()` of an optional string, `a or b` on optional
 * strings, and the exceptions the core can raise.
 */
module PyValues {
  import opened Wrappers

  /** A Python value built from None, bool, int, str, list and dict. */
  datatype Json =
    | JNone
    | JBool(b: bool)
    | JInt(i: int)
    | JStr(s: string)
    | JList(items: seq<Json>)
    | JDict(fields: map<string, Json>)

  /** Python truthiness: None, False, 0 and empty containers are falsy. */
  predicate Truthy(v: Json) {
    match v
    case JNone => false
    case JBool(b) => b
    case JInt(i) => i != 0
    case JStr(s) => s != ""
    case JList(items) => items != []
    case JDict(fields) => |fields| != 0
  }

  /** Truthiness of a value that is either None or a string. */
  predicate TruthyStr(o: Option<string>) {
    o.Some? && o.value != ""
  }

  /** `str(o)` for None or a string: None prints as "None". */
  function StrOf(o: Option<string>): string {
    match o
    case None => "None"
    case Some(s) => s
  }

  /** Python's `a or b` on two values that are None or a string. */
  function OrElse(a: Option<string>, b: Option<string>): Option<string> {
    if TruthyStr(a) then a else b
  }

  /** `o or ""` for None or a string. */
  function OrEmpty(o: Option<string>): (r: string)
    ensures TruthyStr(o) ==> r == o.value
    ensures r == "" <==> !TruthyStr(o)
  {
    if TruthyStr(o) then o.value else ""
  }

  /** `d.get(key, default)` on a dict value. */
  function GetField(fields: map<string, Json>, key: string, default: Json): Json {
    if key in fields then fields[key] else default
  }

  /** The exceptions the modelled code raises or lets through. */
  datatype PyError =
    | KeyError(key: string)
    | AttributeError(attribute: string)
    | TypeError(what: string)
    | NameError(name: string)
    | ValueError(message: string)
    | RaisedException(message: string)
}

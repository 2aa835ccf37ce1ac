/**
 * Values produced by `JSON.parse` and the few JavaScript operations the
 * routes apply to them: truthiness, property reads, `x.length > 0`, `x[0]`
 * and conversion to a string inside a template literal.
 */
module JsonValue {
  import opened Wrappers
  import opened JsText

  /** A parsed JSON value. Numbers are modelled as integers. */
  datatype Json =
    | JNull
    | JBool(b: bool)
    | JNum(n: int)
    | JStr(s: string)
    | JArr(items: seq<Json>)
    | JObj(fields: map<string, Json>)

  /** JavaScript truthiness of a value that may be `undefined` (`None`). */
  predicate Truthy(v: Option<Json>) {
    match v
    case None => false
    case Some(JNull) => false
    case Some(JBool(b)) => b
    case Some(JNum(n)) => n != 0
    case Some(JStr(s)) => s != ""
    case Some(_) => true
  }

  /**
   * `v.key` on a value that is not `null`: the own field of an object, and
   * `undefined` for every other value (none of the keys read by the
   * application is a property of strings, numbers, booleans or arrays).
   */
  function Get(v: Json, key: string): Option<Json> {
    if v.JObj? && key in v.fields then Some(v.fields[key]) else None
  }

  /** `v.length > 0`, where `v` is neither `null` nor `undefined`. */
  predicate HasElements(v: Json) {
    match v
    case JArr(items) => |items| > 0
    case JStr(s) => |s| > 0
    case JObj(fields) => "length" in fields && fields["length"].JNum? && fields["length"].n > 0
    case _ => false
  }

  /** `v[0]`, where `v` is neither `null` nor `undefined`. */
  function Index0(v: Json): Option<Json> {
    match v
    case JArr(items) => if |items| > 0 then Some(items[0]) else None
    case JStr(s) => if |s| > 0 then Some(JStr([s[0]])) else None
    case JObj(_) => Get(v, "0")
    case _ => None
  }

  /** The string `${v}` produces. */
  function ToJsString(v: Json): string
    decreases v, 1
  {
    match v
    case JNull => "null"
    case JBool(b) => if b then "true" else "false"
    case JNum(n) => IntToString(n)
    case JStr(s) => s
    case JArr(_) => ItemsToString(v, 0)
    case JObj(_) => "[object Object]"
  }

  /** `Array.prototype.join(",")` from index `k`, rendering `null` elements as "". */
  function ItemsToString(arr: Json, k: nat): string
    requires arr.JArr?
    decreases arr, 0, |arr.items| - k
  {
    if k >= |arr.items| then ""
    else
      var item := if arr.items[k].JNull? then "" else ToJsString(arr.items[k]);
      if k + 1 == |arr.items| then item else item + "," + ItemsToString(arr, k + 1)
  }

  /** `{ error: message }` */
  function ErrorBody(message: string): Json {
    JObj(map["error" := JStr(message)])
  }
}

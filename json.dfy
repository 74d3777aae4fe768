/** JSON values as the application receives them from `response.json()`, and the parts of
    JavaScript's semantics the application applies to them: property access, element
    access, truthiness and conversion to a string. */
module JsonValue {
  import opened Wrappers
  import opened JsRuntime

  /** A parsed JSON value. */
  datatype Json =
    | JNull
    | JBool(b: bool)
    | JNum(n: real)
    | JStr(s: string)
    | JArr(items: seq<Json>)
    | JObj(fields: map<string, Json>)

  /** How a finite number is written by `String(n)` and template literals. */
  type NumberText = real -> string

  /** `item?.key`: `None` is `undefined` (no such property, or `item` is not an object). */
  function Get(item: Json, key: string): Option<Json> {
    if item.JObj? && key in item.fields then Some(item.fields[key]) else None
  }

  /** `String(v)` of a JSON value: arrays are joined with commas (null elements as empty
      strings), objects print as `[object Object]`. */
  function JsString(v: Json, show: NumberText): string
    decreases v, if v.JArr? then |v.items| + 1 else 0
  {
    match v
    case JNull => "null"
    case JBool(b) => if b then "true" else "false"
    case JNum(n) => show(n)
    case JStr(s) => s
    case JArr(items) => JoinFrom(items, 0, show)
    case JObj(_) => "[object Object]"
  }

  /** `items.slice(i).join(",")`. */
  function JoinFrom(items: seq<Json>, i: nat, show: NumberText): string
    requires i <= |items|
    decreases JArr(items), |items| - i
  {
    if i == |items| then ""
    else
      var part := if items[i].JNull? then "" else JsString(items[i], show);
      if i + 1 == |items| then part else part + "," + JoinFrom(items, i + 1, show)
  }

  /** JavaScript truthiness; `None` is `undefined`. Numbers are finite here, so only zero
      is a falsy number. */
  predicate Truthy(v: Option<Json>) {
    match v
    case None => false
    case Some(JNull) => false
    case Some(JBool(b)) => b
    case Some(JNum(n)) => n != 0.0
    case Some(JStr(s)) => s != []
    case Some(_) => true
  }

  /** `v[i]` on a value that is not null: an array element, an object's property named by
      the decimal index, a one-character string, or `undefined` past the end and on
      numbers and booleans. */
  function Element(v: Json, i: nat): (r: Option<Json>)
    requires !v.JNull?
    ensures v.JArr? ==> (r.Some? <==> i < |v.items|)
    ensures v.JArr? && i < |v.items| ==> r == Some(v.items[i])
  {
    match v
    case JArr(items) => if i < |items| then Some(items[i]) else None
    case JObj(fields) => var k := IntToString(i); if k in fields then Some(fields[k]) else None
    case JStr(s) => if i < |s| then Some(JStr([s[i]])) else None
    case _ => None
  }

  /** `x || fallback`. */
  function OrElse(x: Option<Json>, fallback: Json): (r: Json)
    ensures Truthy(x) ==> Some(r) == x
    ensures !Truthy(x) ==> r == fallback
  {
    if Truthy(x) then x.value else fallback
  }
}

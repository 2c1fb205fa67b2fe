/** A value as `JSON.parse` returns it, and the three JavaScript operations
    the formatters apply to such values: truthiness, reading a property, and
    conversion to a string (`String(v)`, a template literal, `join`). */
module JsonValue {
  import opened Wrappers

  /** A parsed JSON value. A number carries the text JavaScript's `String()`
      gives it (the floating-point value itself is not modelled); an object
      maps each key to the value `JSON.parse` kept for it, the last one when
      a key is repeated. */
  datatype Json =
    | JNull
    | JBool(b: bool)
    | JNumber(text: string)
    | JString(s: string)
    | JArray(elems: seq<Json>)
    | JObject(fields: map<string, Json>)

  /** JavaScript truthiness. A JSON number is never NaN, and both zeros
      render as "0", so a number is falsy exactly when it renders as "0". */
  predicate Truthy(v: Json) {
    match v
    case JNull => false
    case JBool(b) => b
    case JNumber(t) => t != "0"
    case JString(s) => s != ""
    case JArray(_) => true
    case JObject(_) => true
  }

  /** A string that may be absent (undefined or null) is truthy exactly when
      it is present and not empty. */
  predicate TruthyText(v: Option<string>) {
    v.Some? && v.value != ""
  }

  /** `typeof v === "object"`, which holds for null and arrays too. */
  predicate IsObjectType(v: Json) {
    v.JNull? || v.JArray? || v.JObject?
  }

  /** `v[key]` for a non-null value and one of the keys the formatters read
      (none of them is inherited from a prototype): an object's own field,
      `undefined` (None) otherwise. Reading a property of null throws, so
      every caller rules null out first. */
  function Prop(v: Json, key: string): (p: Option<Json>)
    requires !v.JNull?
  {
    if v.JObject? && key in v.fields then Some(v.fields[key]) else None
  }

  /** Whether `String(v)` returns. `JSON.parse` makes every key an own
      property, so an object with a "toString" key has a `toString` that is
      not a function; its `valueOf` gives back the object itself, and the
      conversion throws a TypeError. Any other object prints as
      "[object Object]". An array prints through `join`, so it is printable
      when each of its elements is. */
  predicate Printable(v: Json) {
    match v
    case JObject(fields) => "toString" !in fields
    case JArray(elems) => forall i :: 0 <= i < |elems| ==> Printable(elems[i])
    case _ => true
  }

  /** A property read that a template literal can write: `undefined`, or a
      printable value. */
  predicate PrintableProp(p: Option<Json>) {
    p.None? || Printable(p.value)
  }

  /** `String(v)`, for a value it does not throw on. */
  function Str(v: Json): string
    requires Printable(v)
    decreases v, 1
  {
    match v
    case JNull => "null"
    case JBool(b) => if b then "true" else "false"
    case JNumber(t) => t
    case JString(s) => s
    case JArray(elems) => ArrayStr(elems)
    case JObject(_) => "[object Object]"
  }

  /** How `Array.prototype.join` writes one element: null as "". */
  function ElementStr(v: Json): string
    requires Printable(v)
    decreases v, 2
  {
    if v.JNull? then "" else Str(v)
  }

  /** `String(array)`, that is `array.join(",")`. */
  function ArrayStr(elems: seq<Json>): string
    requires forall i :: 0 <= i < |elems| ==> Printable(elems[i])
    decreases elems, 0
  {
    if |elems| == 0 then ""
    else if |elems| == 1 then ElementStr(elems[0])
    else ElementStr(elems[0]) + "," + ArrayStr(elems[1..])
  }

  /** `${p}` in a template literal, where `p` may be undefined. */
  function TemplateStr(p: Option<Json>): string
    requires PrintableProp(p)
  {
    match p
    case None => "undefined"
    case Some(v) => Str(v)
  }
}

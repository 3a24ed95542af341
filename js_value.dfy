/** JavaScript values as they appear in the accessory's configuration object,
    with the truthiness and property-access rules that the accessory's
    `if (config.x)` and `typeof` tests depend on. */
module JsValue {
  import opened Options

  /** A JSON value. Numbers are integers only (no fractions, no NaN). */
  datatype Value =
    | Null
    | Bool(b: bool)
    | Number(n: int)
    | Str(s: string)
    | Array(items: seq<Value>)
    | Object(props: map<string, Value>)

  /** A configuration object: property names to values. */
  type Props = map<string, Value>

  /** `obj.key`; None stands for `undefined`. */
  function Get(obj: Props, key: string): (r: Option<Value>)
    ensures r.Some? <==> key in obj
    ensures r.Some? ==> r.value == obj[key]
  {
    if key in obj then Some(obj[key]) else None
  }

  /** `v.key` for a value that is already known to be defined: only an
      object has properties; on anything else the access is `undefined`. */
  function Member(v: Value, key: string): Option<Value> {
    match v
    case Object(props) => Get(props, key)
    case _ => None
  }

  /** JavaScript truthiness of a possibly undefined value. */
  predicate Truthy(v: Option<Value>) {
    match v
    case None => false
    case Some(Null) => false
    case Some(Bool(b)) => b
    case Some(Number(n)) => n != 0
    case Some(Str(s)) => s != ""
    case Some(Array(_)) => true
    case Some(Object(_)) => true
  }

  /** `typeof v === "number"`. */
  predicate IsNumber(v: Option<Value>) {
    v.Some? && v.value.Number?
  }

  /** `typeof v === "string"`. */
  predicate IsString(v: Option<Value>) {
    v.Some? && v.value.Str?
  }

  /** `typeof v === "boolean"`. */
  predicate IsBoolean(v: Option<Value>) {
    v.Some? && v.value.Bool?
  }
}

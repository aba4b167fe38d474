/**
  The loosely typed values the handler reads out of parsed JSON: enough of
  JavaScript's value domain to decide truthiness and property reads.
 */
module JsValues {

  /** A JavaScript value as `JSON.parse` or a property read can produce it.
      Numbers are exact reals: NaN, -0 and rounding are not represented. */
  datatype JsValue =
    | Undefined
    | Null
    | Boolean(b: bool)
    | Number(n: real)
    | Str(s: string)
    | Array(elements: seq<JsValue>)
    | Object(properties: map<string, JsValue>)

  /** `null` and `undefined`: reading a property of either throws a TypeError. */
  predicate IsNullish(v: JsValue) {
    v.Undefined? || v.Null?
  }

  /** JavaScript truthiness, as `&&` tests it. */
  predicate Truthy(v: JsValue)
    ensures Truthy(v) ==> !IsNullish(v)
    ensures v.Array? || v.Object? ==> Truthy(v)
  {
    match v
    case Undefined => false
    case Null => false
    case Boolean(b) => b
    case Number(n) => n != 0.0
    case Str(s) => s != []
    case Array(_) => true
    case Object(_) => true
  }

  /** The falsy values are exactly undefined, null, false, 0 and the empty string. */
  lemma FalsyValues(v: JsValue)
    ensures !Truthy(v) <==> v in {Undefined, Null, Boolean(false), Number(0.0), Str([])}
  {
  }

  /** Property read `v.key` on a value that is not nullish. The keys the model reads
      (`tokenSymbol`, `signal`, `tp1`, `tp2`, `sl`, `data`) are not properties of any
      primitive or array, so only an object's own entries are found. */
  function Get(v: JsValue, key: string): (r: JsValue)
    requires !IsNullish(v)
    ensures r != Undefined ==> v.Object? && key in v.properties && r == v.properties[key]
    ensures v.Object? && key in v.properties ==> r == v.properties[key]
  {
    if v.Object? && key in v.properties then v.properties[key] else Undefined
  }
}

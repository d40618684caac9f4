/**
 * JavaScript values as the telemetry code builds them: plain records
 * (`{ ...a, key: v }`), arrays, strings, numbers. Numbers are mathematical
 * reals, with NaN as a value of its own; key order of records is not kept.
 */
module JsValues {
  import opened Wrappers

  datatype JsValue =
    | JUndefined
    | JNull
    | JBool(b: bool)
    | JNum(n: real)
    | JNaN
    | JStr(s: string)
    | JObj(fields: map<string, JsValue>)
    | JArr(items: seq<JsValue>)

  /** A plain object used as a record of named values. */
  type Record = map<string, JsValue>

  /** JavaScript truthiness: `undefined`, `null`, `false`, `0`, `NaN` and `""` are falsy. */
  predicate Truthy(v: JsValue) {
    match v
    case JUndefined => false
    case JNull => false
    case JBool(b) => b
    case JNum(n) => n != 0.0
    case JNaN => false
    case JStr(s) => s != ""
    case JObj(_) => true
    case JArr(_) => true
  }

  /** The keys `...x` contributes: none when `x` is `undefined`. */
  function Spread(x: Option<Record>): Record {
    if x.Some? then x.value else map[]
  }

  /** `{ ...base, ...overrides }`: every key of `overrides` wins over the same key of `base`. */
  function Override(base: Record, overrides: Record): (r: Record)
    ensures r.Keys == base.Keys + overrides.Keys
    ensures forall k :: k in overrides ==> r[k] == overrides[k]
    ensures forall k :: k in base && k !in overrides ==> r[k] == base[k]
  {
    base + overrides
  }

  /** An optional number as a property value: `undefined` when absent. */
  function OptNum(x: Option<real>): JsValue {
    if x.Some? then JNum(x.value) else JUndefined
  }

  function OptStr(x: Option<string>): JsValue {
    if x.Some? then JStr(x.value) else JUndefined
  }

  function OptBool(x: Option<bool>): JsValue {
    if x.Some? then JBool(x.value) else JUndefined
  }
}

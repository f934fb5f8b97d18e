/** The part of JavaScript's value model that the extension's logic inspects:
    numbers (finite or not), strings, and the shapes `JSON.parse` can produce. */
module JsValues {
  import opened Wrappers

  /** A JavaScript `number`. `NonFinite` stands for NaN and both infinities;
      finite numbers are exact reals (IEEE-754 rounding is not modelled). */
  datatype Num = Finite(r: real) | NonFinite

  /** `Number.isFinite(n)`. */
  predicate IsFinite(n: Num) {
    n.Finite?
  }

  /** A JavaScript value as found in parsed JSON or as a property read on it. */
  datatype Value =
    | Undefined
    | Null
    | Bool(b: bool)
    | Number(n: Num)
    | Str(s: string)
    | Arr(items: seq<Value>)
    | Obj(fields: map<string, Value>)

  /** `Array.isArray(v)`. */
  predicate IsArray(v: Value) {
    v.Arr?
  }

  /** The property read `v[key]` for the keys read by the key lookup
      (`OPENAI_API_KEY`, `env`, `ANTHROPIC_AUTH_TOKEN`), which no value has
      as an inherited or built-in property: it throws (`None`) on `null` and
      `undefined`, gives the property on an object, and gives `undefined` on
      every other value. */
  function Member(v: Value, key: string): (r: Option<Value>)
    ensures r.None? <==> v.Null? || v.Undefined?
    ensures r.Some? && r.value != Undefined ==> v.Obj? && key in v.fields && r.value == v.fields[key]
    ensures v.Obj? && key in v.fields ==> r == Some(v.fields[key])
  {
    match v
    case Null => None
    case Undefined => None
    case Obj(fields) => if key in fields then Some(fields[key]) else Some(Undefined)
    case _ => Some(Undefined)
  }
}

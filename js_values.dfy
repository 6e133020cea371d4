/**
 * The scalar JSON values that profile objects and request bodies carry, with JavaScript's
 * truthiness (`if (v)`, `v || d`) and template-literal rendering (`${v}`).
 */
module JsValues {
  import opened Wrappers
  import Text

  datatype Value = Null | Bool(b: bool) | Num(n: int) | Str(s: string)

  /** A JSON object with scalar members (a profile, a parsed request body). */
  type Object = map<string, Value>

  /** JavaScript truthiness: `null`, `false`, `0` and `''` are falsy. */
  predicate Truthy(v: Value) {
    match v
    case Null => false
    case Bool(b) => b
    case Num(n) => n != 0
    case Str(s) => s != ""
  }

  /** `${v}` inside a template literal. */
  function Display(v: Value): string {
    match v
    case Null => "null"
    case Bool(b) => if b then "true" else "false"
    case Num(n) => Text.IntToString(n)
    case Str(s) => s
  }

  /** `o[k] || d` rendered as text: the member's text when it is truthy, else the default. */
  function FieldOr(o: Object, k: string, d: string): (r: string)
    ensures k !in o || !Truthy(o[k]) ==> r == d
  {
    if k in o && Truthy(o[k]) then Display(o[k]) else d
  }

  /** `a || b` on optional strings: an absent or empty string gives way to the next. */
  predicate NonEmpty(s: Option<string>) {
    s.Some? && s.value != ""
  }
}

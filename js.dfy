/** The handful of JavaScript values the updater's fields ever hold, and the
    two operators its comparisons use: strict equality (`===`, which on these
    values is structural equality of `Value`) and logical negation (`!`). */
module Js {

  /** A JavaScript value as seen by the updater: `null`, `undefined`, a
      boolean or a string. Addresses are strings; `null` marks "not known". */
  datatype Value = Null | Undefined | Bool(b: bool) | Str(s: string)

  /** JavaScript's ToBoolean on these values: `null`, `undefined`, `false`
      and the empty string are falsy, everything else is truthy. */
  predicate Truthy(v: Value) {
    match v
    case Null => false
    case Undefined => false
    case Bool(b) => b
    case Str(s) => s != ""
  }

  /** The value of `!v`: always a boolean. */
  function Not(v: Value): (r: Value)
    ensures r.Bool?
    ensures r.b <==> !Truthy(v)
  {
    Bool(!Truthy(v))
  }
}

/** JavaScript values as far as the extension's decisions look at them:
    truthiness (`x || d`, `if (x)`), strict equality with `true`, and the
    normal / throwing completion of an awaited call. */
module Js {

  datatype Option<+T> = None | Some(value: T)

  /** A value read back from browser storage or a form field. Objects are
      only ever tested for truthiness, so they carry no content here. */
  datatype Value =
    | Undefined
    | Null
    | Bool(b: bool)
    | Num(x: real)
    | NaN
    | Str(s: string)
    | Object

  /** ECMAScript ToBoolean. */
  predicate Truthy(v: Value)
  {
    match v
    case Undefined => false
    case Null => false
    case Bool(b) => b
    case Num(x) => x != 0.0
    case NaN => false
    case Str(s) => s != ""
    case Object => true
  }

  /** `v === true`. */
  predicate StrictlyTrue(v: Value)
  {
    v == Bool(true)
  }

  /** Truthiness of a property that holds a string or is missing. */
  predicate Present(o: Option<string>)
  {
    o.Some? && o.value != ""
  }

  /** `o || fallback` for a string-or-missing property. */
  function OrElse(o: Option<string>, fallback: string): string
  {
    if Present(o) then o.value else fallback
  }

  /** A default parameter `p = fallback`: it applies to `undefined` only. */
  function ArgOr(o: Option<string>, fallback: string): string
  {
    if o.Some? then o.value else fallback
  }

  /** How an awaited call ends: with a value, or by throwing an error whose
      `message` is given. */
  datatype Completion<+T> = Returned(value: T) | Raised(error: string)

  /** Strict truth is stronger than truthiness: every value that is `=== true`
      is truthy, and some truthy values are not `=== true`. */
  lemma {:induction false} StrictlyTrueIsStrongerThanTruthy()
    ensures forall v :: StrictlyTrue(v) ==> Truthy(v)
    ensures exists v :: Truthy(v) && !StrictlyTrue(v)
  {
    assert Truthy(Num(1.0)) && !StrictlyTrue(Num(1.0));
  }

  /** `||` and a default parameter differ exactly on the empty string. */
  lemma OrElseDiffersFromArgOrOnlyOnEmpty(o: Option<string>, fallback: string)
    requires fallback != ""
    ensures OrElse(o, fallback) != ArgOr(o, fallback) <==> o == Some("")
  {
  }
}

/** The few JavaScript value rules the two pages rely on: optional values
    (`undefined`/`null` as None) and the truthiness of strings used by `||`
    and `if (value)`. */
module JsValues {

  /** An optional value; None stands for `undefined` or `null`. */
  datatype Option<+T> = None | Some(value: T)

  /** A string is truthy exactly when it is present and non-empty. */
  predicate Truthy(s: Option<string>) {
    s.Some? && s.value != ""
  }

  /** `s || fallback`: the string itself when it is truthy, the fallback otherwise. */
  function Or(s: Option<string>, fallback: string): (r: string)
    ensures Truthy(s) ==> r == s.value && r != ""
    ensures !Truthy(s) ==> r == fallback
  {
    match s
    case Some(v) => if v != "" then v else fallback
    case None => fallback
  }
}

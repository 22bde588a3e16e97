/** The few JavaScript value rules the model needs: an optional value
    (`undefined` or a value), a string property that may be absent, and the
    truthiness on which `||` and `&&` decide. */
module JsValues {

  datatype Option<+T> = None | Some(value: T)

  /** A string-valued property of a JSON object that may be missing (`undefined`). */
  datatype Str = Absent | Present(text: string)

  /** JavaScript truthiness of a string-or-undefined value: only a non-empty
      string is truthy. */
  predicate Truthy(v: Str) {
    v.Present? && v.text != ""
  }

  /** JavaScript's `a || b`: the left operand when it is truthy, else the right one. */
  function Or(a: Str, b: Str): Str {
    if Truthy(a) then a else b
  }
}

/** The two pieces of JavaScript value semantics the `/ai` handler relies on,
    restricted to values that are either a string or `undefined`. */
module Js {
  import opened Wrappers

  /** JavaScript truthiness of a string-or-undefined: `undefined` and the empty
      string are falsy, every other string is truthy. */
  predicate Truthy(x: Option<string>) {
    x.Some? && x.value != ""
  }

  /** The `x || fallback` operator: the left operand when it is truthy,
      otherwise the right operand. */
  function Or(x: Option<string>, fallback: string): (r: string)
    ensures Truthy(x) ==> r == x.value
    ensures !Truthy(x) ==> r == fallback
    ensures r == "" ==> fallback == ""
  {
    if x.Some? && |x.value| > 0 then x.value else fallback
  }
}

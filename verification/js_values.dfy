/** How the client's JavaScript treats an optional string: truthiness in a
    condition and its text inside a string concatenation. */
module JsValues {
  import opened Wrappers

  /** `if (x)` / `!x` on a `string | undefined`: both `undefined` and the
      empty string are falsy. */
  predicate Truthy(x: Option<string>) {
    x.Some? && x.value != ""
  }

  /** The text a `string | undefined` contributes to `"a" + x`. */
  function ConcatText(x: Option<string>): string {
    match x
    case Some(s) => s
    case None => "undefined"
  }
}

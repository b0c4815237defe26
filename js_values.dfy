/**
 * How JavaScript reads a client-supplied string property, shared by the socket
 * server and the HTTP handlers: its truthiness in an `if`, and its rendering in a
 * template literal.
 */
module JsValues {
  import opened Wrappers

  /** `if (x)` on a string property: absent (`undefined`) and `""` are falsy. */
  predicate Truthy(v: Option<string>) {
    v.Some? && v.value != ""
  }

  /** How a template literal renders a string property: an absent one becomes `"undefined"`. */
  function Render(v: Option<string>): string {
    match v
    case None => "undefined"
    case Some(s) => s
  }
}

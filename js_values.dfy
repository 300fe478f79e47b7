/** The pieces of JavaScript value semantics that the modelled code relies on,
    for values that are either `undefined` or a string. */
module JsValues {
  import opened Wrappers

  /** JavaScript truthiness: `undefined` and the empty string are falsy,
      every other string is truthy. */
  predicate Truthy(v: Option<string>)
  {
    v.Some? && v.value != ""
  }

  /** The expression `v || fallback`. */
  function Or(v: Option<string>, fallback: string): string
  {
    if Truthy(v) then v.value else fallback
  }

  /** The text a template literal produces for `${v}`. */
  function TemplateText(v: Option<string>): string
  {
    match v
    case None => "undefined"
    case Some(s) => s
  }
}

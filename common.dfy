/** Values shared by every handler: optional request fields and the two
    JavaScript coercions the handlers rely on. */
module Common {

  /** A field that a request body or a token payload may or may not carry. */
  datatype Option<+T> = None | Some(value: T)

  /** JavaScript truthiness of an optional string (`if (s)`, `!s`): it must be
      present and non-empty. Mongoose's `required` on a String field is the
      same test. */
  predicate Truthy(o: Option<string>)
  {
    o.Some? && o.value != ""
  }

  /** The string an optional value becomes in a JavaScript concatenation
      `a + "|" + b`: an absent field turns into the text "undefined". */
  function JsString(o: Option<string>): (s: string)
    ensures o.Some? ==> s == o.value
    ensures o.None? ==> s == "undefined"
  {
    if o.Some? then o.value else "undefined"
  }
}

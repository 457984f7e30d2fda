/** The output-format selector `o` used by every exported resource: the
    structured builder or the markup builder, called with the same
    arguments. */
module FormatSelect {
  import opened JsValue

  /** Either the structured payload or its markup text. */
  datatype Rendering<S, M> = Structured(payload: S) | Markup(text: M)

  /** `o(mJ, mH, f, ...)`: strict equality with the string "json" picks the
      structured builder; every other tag (another case, a different
      string, a missing or non-string tag) picks the markup builder. */
  function Select<A, S, M>(tag: Json, structured: A -> S, markup: A -> M, args: A): (r: Rendering<S, M>)
    ensures r.Structured? <==> tag == Str("json")
    ensures r.Structured? ==> r.payload == structured(args)
    ensures r.Markup? ==> r.text == markup(args)
  {
    if tag == Str("json") then Structured(structured(args)) else Markup(markup(args))
  }
}

/** The field-list formatter of the layer page: one list-item fragment per
    field, concatenated in order. The substitution of the five values into the
    list-item template (JavaScript's `util.format`) is left abstract as the
    function `fragment`. */
module FieldsHtml {
  import opened JsValue

  /** The five values substituted into a field's list item: name, type,
      alias, nullable (None where the field lacks the property, printed as
      `undefined`) and editable. */
  datatype FieldArgs = FieldArgs(
    name: Option<Json>,
    fieldType: Option<Json>,
    alias: Option<Json>,
    nullable: Option<Json>,
    editable: Json)

  /** Reads the four properties of one field; a null field throws. The
      editable slot is the constant false, whatever the field says. */
  function FieldArgsOf(field: Json): Result<FieldArgs> {
    var name :- GetProp(field, "name");
    var fieldType :- GetProp(field, "type");
    var alias :- GetProp(field, "alias");
    var nullable :- GetProp(field, "nullable");
    Ok(FieldArgs(name, fieldType, alias, nullable, Bool(false)))
  }

  /** A field list every entry of which can be read (no null entry). */
  predicate Renderable(fields: seq<Json>) {
    forall i :: 0 <= i < |fields| ==> fields[i] != Null
  }

  /** Reference definition: the fragments of the fields, first to last. */
  function FieldsText(fields: seq<Json>, fragment: FieldArgs -> string): string
    requires Renderable(fields)
  {
    if fields == [] then ""
    else fragment(FieldArgsOf(fields[0]).value) + FieldsText(fields[1..], fragment)
  }

  /** Reading a field fails exactly on null, and its editable slot is false. */
  lemma FieldArgsOfFails(field: Json)
    ensures FieldArgsOf(field).Err? <==> field == Null
    ensures FieldArgsOf(field).Ok? ==> FieldArgsOf(field).value.editable == Bool(false)
  {
  }

  /** The field's own `editable` property has no influence on its fragment. */
  lemma EditableIgnored(m: map<string, Json>, editable: Json)
    ensures FieldArgsOf(Obj(m)) == FieldArgsOf(Obj(m["editable" := editable]))
    ensures FieldArgsOf(Obj(m)).value.editable == Bool(false)
  {
  }

  /** Appending a field appends its fragment: the text for `fields + [f]` is
      the text for `fields` followed by the fragment for `f`. */
  lemma {:induction false} FieldsTextAppend(fields: seq<Json>, f: Json, fragment: FieldArgs -> string)
    requires Renderable(fields) && f != Null
    ensures Renderable(fields + [f])
    ensures FieldsText(fields + [f], fragment) == FieldsText(fields, fragment) + fragment(FieldArgsOf(f).value)
  {
    if fields == [] {
      assert [] + [f] == [f];
    } else {
      assert (fields + [f])[1..] == fields[1..] + [f];
      FieldsTextAppend(fields[1..], f, fragment);
    }
  }

  /** `getHtmlForFields`: builds the text in a loop, one fragment per field in
      order. A null entry throws when it is reached. */
  method GetHtmlForFields(fields: seq<Json>, fragment: FieldArgs -> string) returns (r: Result<string>)
    ensures r.Ok? <==> Renderable(fields)
    ensures r.Ok? ==> r.value == FieldsText(fields, fragment)
    ensures fields == [] ==> r == Ok("")
  {
    var outStr := "";
    var i := 0;
    while i < |fields|
      invariant 0 <= i <= |fields|
      invariant Renderable(fields[..i])
      invariant outStr == FieldsText(fields[..i], fragment)
    {
      var args := FieldArgsOf(fields[i]);
      if args.Err? {
        return Err(TypeError);
      }
      FieldsTextAppend(fields[..i], fields[i], fragment);
      assert fields[..i + 1] == fields[..i] + [fields[i]];
      outStr := outStr + fragment(args.value);
      i := i + 1;
    }
    assert fields[..i] == fields;
    r := Ok(outStr);
  }
}

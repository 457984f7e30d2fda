/** The JavaScript values the adaptor handles: JSON data (templates, provider
    descriptors, features), property reads and writes with the semantics of
    non-strict JavaScript, and the `_clone` deep copy. */
module JsValue {

  /** A JSON-shaped JavaScript value. Numbers are exact reals (NaN and the
      infinities are not JSON data); an object is a map from key to value
      (key order is not modelled). */
  datatype Json =
    | Null
    | Bool(b: bool)
    | Num(n: real)
    | Str(s: string)
    | Arr(items: seq<Json>)
    | Obj(props: map<string, Json>)

  /** A property read yields a value or JavaScript's `undefined` (None). */
  datatype Option<T> = None | Some(value: T)

  /** The only failure this layer produces: a property access on null or
      undefined, or a call of something that is not a function. */
  datatype Error = TypeError

  datatype Result<T> = Ok(value: T) | Err(error: Error) {
    predicate IsFailure() { Err? }

    function PropagateFailure<U>(): Result<U>
      requires Err?
    {
      Err(error)
    }

    function Extract(): T
      requires Ok?
    {
      value
    }
  }

  /** JavaScript's ToBoolean on JSON data: null, false, 0 and "" are falsy. */
  predicate Truthy(v: Json) {
    match v
    case Null => false
    case Bool(b) => b
    case Num(n) => n != 0.0
    case Str(s) => s != ""
    case _ => true
  }

  /** `_clone`: a truthy value is deep-copied through its JSON text, which
      reproduces JSON data exactly; a falsy one becomes null. */
  function Clone(v: Json): (r: Json)
    ensures Truthy(v) ==> r == v
    ensures !Truthy(v) ==> r == Null
    ensures Truthy(r) == Truthy(v)
  {
    if Truthy(v) then v else Null
  }

  /** Reading `v[key]` for a named (non-index) key: null throws; an object
      yields its own property or undefined; the other values own none of the
      keys this layer reads. */
  function GetProp(v: Json, key: string): Result<Option<Json>> {
    match v
    case Null => Err(TypeError)
    case Obj(m) => Ok(if key in m then Some(m[key]) else None)
    case _ => Ok(None)
  }

  /** Writing `v[key] = x` in non-strict code: null throws; an object gets
      the property (added or overwritten); on any other value the write
      leaves the JSON value unchanged. */
  function SetProp(v: Json, key: string, x: Json): Result<Json> {
    match v
    case Null => Err(TypeError)
    case Obj(m) => Ok(Obj(m[key := x]))
    case _ => Ok(v)
  }

  /** Overwriting a property after a merge is merging the overwrite. */
  lemma MergeUpdate(m: map<string, Json>, u: map<string, Json>, key: string, x: Json)
    ensures (m + u)[key := x] == m + u[key := x]
  {
  }

  /** Overwriting one property is merging a one-entry map. */
  lemma UpdateIsMerge(m: map<string, Json>, key: string, x: Json)
    ensures m[key := x] == m + map[key := x]
  {
  }
}

/**
 * `validationError` of src/utils/validation.error.ts: a Joi error becomes a
 * 400 envelope whose `errors` list has one `{field, message}` entry per detail.
 * The auth validation middlewares build the same list inline.
 */
module ValidationErrors {
  import opened Wrappers
  import opened Json
  import opened Joi
  import opened Helper

  /** `detail.path[0]`: the top-level key, an index, or `undefined` for the root value. */
  function FieldOf(path: seq<PathKey>): (v: Value)
    ensures path == [] <==> v == Undefined
    ensures path != [] && path[0].Key? ==> v == Str(path[0].name)
  {
    if path == [] then Undefined
    else match path[0]
      case Key(name) => Str(name)
      case Index(i) => Num(i as real)
  }

  /** `{ field: detail.path[0], message: detail.message }`. */
  function ErrorEntry(d: Detail): Value
  {
    Obj([("field", FieldOf(d.path)), ("message", Str(d.message))])
  }

  /** `error.details.map(...)`: one entry per detail, in order, carrying its field and message. */
  function ErrorEntries(details: seq<Detail>): (r: seq<Value>)
    ensures |r| == |details|
    ensures forall i :: 0 <= i < |details| ==>
      && r[i].Obj?
      && Get(r[i].fields, "field") == FieldOf(details[i].path)
      && Get(r[i].fields, "message") == Str(details[i].message)
  {
    if details == [] then []
    else [ErrorEntry(details[0])] + ErrorEntries(details[1..])
  }

  /**
   * `validationError(res, error)`: nothing is sent when there is no error;
   * otherwise a 400 "Validation Error" envelope carrying the entries.
   */
  function ValidationErrorResponse(e: Option<ValidationError>): (r: Option<Response>)
    ensures r.None? <==> e.None?
    ensures r.Some? ==> r.value.status == BadRequest && r.value.body.Obj?
    ensures r.Some? ==> Get(r.value.body.fields, "success") == Bool(false)
    ensures r.Some? ==> Get(r.value.body.fields, "message") == Str("Validation Error")
    ensures r.Some? ==> Get(r.value.body.fields, "errors") == Arr(ErrorEntries(e.value.details))
  {
    if e.None? then None
    else Some(SendError("Validation Error", BadRequest, Arr(ErrorEntries(e.value.details))))
  }
}

/**
 * Response envelopes and the `ApiError` class of src/utils/helper.ts.
 * Every handler answers with `{success, message}` plus a `data` or `errors`
 * key that appears only when the payload is truthy.
 */
module Helper {
  import opened Wrappers
  import opened Json

  /** The HTTP status codes the handlers use (http-status-codes names). */
  datatype StatusCode =
    | OK | Created | BadRequest | Unauthorized | Forbidden | NotFound | Conflict | InternalServerError
  {
    function Code(): nat
    {
      match this
      case OK => 200
      case Created => 201
      case BadRequest => 400
      case Unauthorized => 401
      case Forbidden => 403
      case NotFound => 404
      case Conflict => 409
      case InternalServerError => 500
    }
  }

  /** What `res.status(code).json(body)` sends. */
  datatype Response = Response(status: StatusCode, body: Value)

  /** `{success, message, ...(payload && {key: payload})}`. */
  function Envelope(success: bool, message: string, key: string, payload: Value): Fields
  {
    [("success", Bool(success)), ("message", Str(message))]
      + (if Truthy(payload) then [(key, payload)] else [])
  }

  /** `sendSuccess(res, message, statusCode = 200, data?)`. */
  function SendSuccess(message: string, status: StatusCode := OK, data: Value := Undefined): (r: Response)
    ensures r.status == status && r.body.Obj?
    ensures Get(r.body.fields, "success") == Bool(true)
    ensures Get(r.body.fields, "message") == Str(message)
    ensures HasKey(r.body.fields, "data") <==> Truthy(data)
    ensures Truthy(data) ==> Get(r.body.fields, "data") == data
    ensures !HasKey(r.body.fields, "errors")
  {
    var fields := Envelope(true, message, "data", data);
    assert Truthy(data) ==> fields[1..][1..] == [("data", data)];
    assert Truthy(data) ==> Get(fields, "data") == Get(fields[1..], "data") == Get(fields[1..][1..], "data");
    Response(status, Obj(fields))
  }

  /** `sendError(res, message, statusCode = 500, errors?)`. */
  function SendError(message: string, status: StatusCode := InternalServerError, errors: Value := Undefined): (r: Response)
    ensures r.status == status && r.body.Obj?
    ensures Get(r.body.fields, "success") == Bool(false)
    ensures Get(r.body.fields, "message") == Str(message)
    ensures HasKey(r.body.fields, "errors") <==> Truthy(errors)
    ensures Truthy(errors) ==> Get(r.body.fields, "errors") == errors
    ensures !HasKey(r.body.fields, "data")
  {
    var fields := Envelope(false, message, "errors", errors);
    assert Truthy(errors) ==> fields[1..][1..] == [("errors", errors)];
    assert Truthy(errors) ==> Get(fields, "errors") == Get(fields[1..], "errors") == Get(fields[1..][1..], "errors");
    Response(status, Obj(fields))
  }

  /**
   * The defaults of the two senders: a success answers 200 with no `data`
   * key, an error answers 500 with no `errors` key.
   */
  lemma DefaultStatuses(message: string)
    ensures SendSuccess(message).status.Code() == 200 && !HasKey(SendSuccess(message).body.fields, "data")
    ensures SendError(message).status.Code() == 500 && !HasKey(SendError(message).body.fields, "errors")
  {
  }

  /** A success and an error envelope never coincide, whatever their arguments. */
  lemma SuccessIsNotError(m1: string, s1: StatusCode, d: Value, m2: string, s2: StatusCode, e: Value)
    ensures SendSuccess(m1, s1, d) != SendError(m2, s2, e)
  {
    var r1, r2 := SendSuccess(m1, s1, d), SendError(m2, s2, e);
    assert Get(r1.body.fields, "success") != Get(r2.body.fields, "success");
  }

  /** `class ApiError extends Error`. */
  class ApiError {
    var name: string
    var message: string
    var statusCode: int
    var errors: Option<seq<string>>

    constructor (statusCode: int, message: string, errors: Option<seq<string>> := None)
      ensures this.statusCode == statusCode && this.message == message && this.errors == errors
      ensures name == "ApiError"
    {
      this.message := message;
      this.statusCode := statusCode;
      this.errors := errors;
      this.name := "ApiError";
    }
  }
}

/**
 * `validateRegister` and `validateLogin` of
 * src/middlewares/auth.validation.middleware.ts: validate the body, answer
 * 400 with the error entries, or pass the request on.
 */
module AuthValidationMiddleware {
  import opened Wrappers
  import opened Json
  import opened Joi
  import opened Helper
  import opened ValidationErrors
  import opened AuthValidation

  /** What a validation middleware does with a request: answer it, or call `next()`. */
  datatype Gate = Reject(response: Response) | Next

  /** The 400 answer for a body the schema refuses. */
  function Rejection(e: ValidationError): (r: Response)
    ensures r.status == BadRequest && r.body.Obj?
    ensures Get(r.body.fields, "message") == Str("Validation Error")
    ensures Get(r.body.fields, "errors") == Arr(ErrorEntries(e.details))
  {
    SendError("Validation Error", BadRequest, Arr(ErrorEntries(e.details)))
  }

  /** `validateRegister`: the request goes on exactly when the body is a registration body. */
  function ValidateRegister(body: Fields, o: Oracles): (r: Gate)
    ensures r.Next? <==> RegisterBody(body, o)
    ensures r.Reject? ==> r.response.status == BadRequest && r.response.body.Obj?
    ensures r.Reject? ==> Get(r.response.body.fields, "message") == Str("Validation Error")
    ensures r.Reject? ==> Get(r.response.body.fields, "errors").Arr? && |Get(r.response.body.fields, "errors").items| == 1
  {
    RegisterSchemaMeaning(body, o);
    var e := Validate(RegisterSchema, body, o);
    if e.Some? then Reject(Rejection(e.value)) else Next
  }

  /** `validateLogin`: the request goes on exactly when the body is a login body. */
  function ValidateLogin(body: Fields, o: Oracles): (r: Gate)
    ensures r.Next? <==> LoginBody(body, o)
    ensures r.Reject? ==> r.response.status == BadRequest && r.response.body.Obj?
    ensures r.Reject? ==> Get(r.response.body.fields, "message") == Str("Validation Error")
    ensures r.Reject? ==> Get(r.response.body.fields, "errors").Arr? && |Get(r.response.body.fields, "errors").items| == 1
  {
    LoginSchemaMeaning(body, o);
    var e := Validate(LoginSchema, body, o);
    if e.Some? then Reject(Rejection(e.value)) else Next
  }

  /** Both middlewares answer a refused body as `validationError` would. */
  lemma RejectionIsValidationError(body: Fields, o: Oracles)
    ensures ValidateRegister(body, o).Reject? ==>
      Some(ValidateRegister(body, o).response) == ValidationErrorResponse(Validate(RegisterSchema, body, o))
    ensures ValidateLogin(body, o).Reject? ==>
      Some(ValidateLogin(body, o).response) == ValidationErrorResponse(Validate(LoginSchema, body, o))
  {
  }

  /** A registration body without a name is answered with the entry `{field: "name", message: "Name is required"}`. */
  lemma MissingNameEntry(body: Fields, o: Oracles)
    requires Get(body, "name") == Undefined
    ensures ValidateRegister(body, o) == Reject(SendError("Validation Error", BadRequest,
              Arr([Obj([("field", Str("name")), ("message", Str("Name is required"))])])))
  {
    RegisterMissingName(body, o);
    var d := Detail("Name is required", [Key("name")]);
    assert ErrorEntries([d]) == [ErrorEntry(d)];
    assert ErrorEntry(d) == Obj([("field", Str("name")), ("message", Str("Name is required"))]);
  }
}

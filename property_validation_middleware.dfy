/**
 * `validateProperty` of src/middlewares/property.validation.middleware.ts.
 * It sends the 400 answer for a refused body but calls `next()` whatever the
 * outcome, and it forwards the request body as received, not Joi's value
 * with its defaults.
 */
module PropertyValidationMiddleware {
  import opened Wrappers
  import opened Json
  import opened Joi
  import opened Helper
  import opened ValidationErrors
  import opened PropertyValidation

  /** The answer sent, if any; whether `next()` runs; the body the next handler sees. */
  datatype PropertyGate = PropertyGate(response: Option<Response>, callsNext: bool, forwarded: Fields)

  function ValidateProperty(body: Fields, o: Oracles): (r: PropertyGate)
    ensures r.response.None? <==> CreatePropertyBody(body, o)
    ensures r.response == ValidationErrorResponse(Validate(CreatePropertySchema, body, o))
    ensures r.callsNext && r.forwarded == body
  {
    CreateSchemaMeaning(body, o);
    PropertyGate(ValidationErrorResponse(Validate(CreatePropertySchema, body, o)), true, body)
  }

  /** A refused body is answered with 400 and still handed to the controller. */
  lemma RefusedBodyStillForwarded(body: Fields, o: Oracles)
    requires !CreatePropertyBody(body, o)
    ensures ValidateProperty(body, o).response.Some?
    ensures ValidateProperty(body, o).response.value.status == BadRequest
    ensures ValidateProperty(body, o).callsNext && ValidateProperty(body, o).forwarded == body
  {
  }

  /** The defaults Joi fills in never reach the controller: an absent rating stays absent. */
  lemma DefaultsNotForwarded(body: Fields, o: Oracles)
    requires Absent(Get(body, "rating"))
    ensures Get(WithDefaults(CreatePropertySchema.keys, body, o), "rating") == Num(0.0)
    ensures Get(ValidateProperty(body, o).forwarded, "rating") == Undefined
  {
    CreateRatingDefault(body, o);
  }
}

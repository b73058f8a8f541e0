/**
 * `registerSchema` and `loginSchema` of src/v1/validations/auth.validation.ts
 * as Joi schema values, with what each accepts stated declaratively.
 */
module AuthValidation {
  import opened Wrappers
  import opened Text
  import opened Json
  import opened Joi

  const NameKey: KeySchema := KeySchema("name", JString(false, Some(2), Some(50), false), Required,
    map["string.min" := "Name must be at least 2 characters",
        "string.max" := "Name must not exceed 50 characters",
        "any.required" := "Name is required"])
  const EmailKey: KeySchema := KeySchema("email", JString(false, None, None, true), Required,
    map["string.email" := "Invalid email format", "any.required" := "Email is required"])
  const PasswordKey: KeySchema := KeySchema("password", JString(false, Some(6), None, false), Required,
    map["string.min" := "Password must be at least 6 characters", "any.required" := "Password is required"])
  const LoginPasswordKey: KeySchema := KeySchema("password", JString(false, None, None, false), Required,
    map["any.required" := "Password is required"])

  const RegisterSchema: ObjectSchema := ObjectSchema([NameKey, EmailKey, PasswordKey], 0)
  const LoginSchema: ObjectSchema := ObjectSchema([EmailKey, LoginPasswordKey], 0)

  /**
   * A registration body: a name of 2 to 50 UTF-16 units, an email the format
   * check accepts, a password of at least 6 units, and no other key.
   */
  predicate RegisterBody(body: Fields, o: Oracles)
  {
    var name, email, password := Get(body, "name"), Get(body, "email"), Get(body, "password");
    && name.Str? && 2 <= Utf16Length(name.s) <= 50
    && email.Str? && email.s != "" && o.isEmail(email.s)
    && password.Str? && Utf16Length(password.s) >= 6
    && forall i :: 0 <= i < |body| ==> body[i].0 in ["name", "email", "password"]
  }

  /** A login body: an email the format check accepts and any non-empty password, nothing else. */
  predicate LoginBody(body: Fields, o: Oracles)
  {
    var email, password := Get(body, "email"), Get(body, "password");
    && email.Str? && email.s != "" && o.isEmail(email.s)
    && password.Str? && password.s != ""
    && forall i :: 0 <= i < |body| ==> body[i].0 in ["email", "password"]
  }

  lemma RegisterSchemaMeaning(body: Fields, o: Oracles)
    ensures Validate(RegisterSchema, body, o).None? <==> RegisterBody(body, o)
  {
    ValidateMeaning(RegisterSchema, body, o);
    var name, email, password := Get(body, "name"), Get(body, "email"), Get(body, "password");
    assert AllKeysOk(RegisterSchema.keys, body, o) <==>
      && name.Str? && 2 <= Utf16Length(name.s) <= 50
      && email.Str? && email.s != "" && o.isEmail(email.s)
      && password.Str? && Utf16Length(password.s) >= 6
    by {
      AllKeysOkThree(NameKey, EmailKey, PasswordKey, body, o);
    }
    assert DeclaredOnly(body, RegisterSchema.keys) <==> forall i :: 0 <= i < |body| ==> body[i].0 in ["name", "email", "password"] by {
      assert SchemaKeys(RegisterSchema.keys) == ["name", "email", "password"];
    }
  }

  lemma LoginSchemaMeaning(body: Fields, o: Oracles)
    ensures Validate(LoginSchema, body, o).None? <==> LoginBody(body, o)
  {
    ValidateMeaning(LoginSchema, body, o);
    AllKeysOkTwo(EmailKey, LoginPasswordKey, body, o);
    assert SchemaKeys(LoginSchema.keys) == ["email", "password"];
  }

  /** A missing name is reported first, with the schema's own message. */
  lemma RegisterMissingName(body: Fields, o: Oracles)
    requires Get(body, "name") == Undefined
    ensures Validate(RegisterSchema, body, o) == Some(ValidationError([Detail("Name is required", [Key("name")])]))
  {
  }

  /** Login imposes no length on the password: a one-character password passes. */
  lemma LoginAcceptsShortPassword(email: string, o: Oracles)
    requires email != "" && o.isEmail(email)
    ensures Validate(LoginSchema, [("email", Str(email)), ("password", Str("x"))], o).None?
  {
    var login: Fields := [("email", Str(email)), ("password", Str("x"))];
    assert Get(login, "email") == Str(email) && Get(login, "password") == Str("x");
    LoginSchemaMeaning(login, o);
  }

  /** Registration refuses the same password, with the schema's own message. */
  lemma RegisterRejectsShortPassword(name: string, email: string, o: Oracles)
    requires 2 <= Utf16Length(name) <= 50 && email != "" && o.isEmail(email)
    ensures Validate(RegisterSchema, [("name", Str(name)), ("email", Str(email)), ("password", Str("x"))], o)
            == Some(ValidationError([Detail("Password must be at least 6 characters", [Key("password")])]))
  {
    var register: Fields := [("name", Str(name)), ("email", Str(email)), ("password", Str("x"))];
    RegisterNameEmailPass(register, name, email, o);
    OnePasswordTooShort(register);
    assert FirstKeyError(RegisterSchema.keys, register, o) == FirstKeyError([PasswordKey], register, o);
  }

  /** The name and the email of that body pass their keys. */
  lemma RegisterNameEmailPass(register: Fields, name: string, email: string, o: Oracles)
    requires 2 <= Utf16Length(name) <= 50 && email != "" && o.isEmail(email)
    requires register == [("name", Str(name)), ("email", Str(email)), ("password", Str("x"))]
    ensures CheckKey(NameKey, register, o).None? && CheckKey(EmailKey, register, o).None?
  {
    assert Get(register, "name") == Str(name) && Get(register, "email") == Str(email);
  }

  /** A one-character password fails `min(6)` with the key's own message. */
  lemma OnePasswordTooShort(register: Fields)
    requires |register| == 3 && register[0].0 == "name" && register[1].0 == "email" && register[2] == ("password", Str("x"))
    ensures forall o :: CheckKey(PasswordKey, register, o) == Some(Detail("Password must be at least 6 characters", [Key("password")]))
  {
    assert register[1..][1..] == [("password", Str("x"))];
    assert Get(register, "password") == Get(register[1..], "password") == Str("x");
    assert Utf16Length("x") == 1;
  }
}

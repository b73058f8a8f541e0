/**
 * `jwtAuthMiddleware` of src/middlewares/jwt.auth.middleware.ts: take the
 * token from the `Authorization` header, verify it, look the user up, and
 * either answer 401/403 or set `req.user` and call `next()`. Signature
 * checking (`jwt.verify` with the secret) and the user query are oracles.
 */
module JwtAuth {
  import opened Wrappers
  import opened Text
  import opened Json
  import opened Helper
  import opened UserModel
  import opened StoreQueries

  /**
   * `authHeader && authHeader.split(' ')[1]`, with `None` for every falsy
   * result: no header, an empty header, no second piece, or an empty one.
   * The first piece (the scheme word of the Bearer form) is never looked at.
   */
  function ExtractToken(header: Option<string>): (token: Option<string>)
    ensures token.Some? ==> header.Some? && token.value != "" && ' ' !in token.value
  {
    if header.None? then None
    else
      var parts := Split(header.value, ' ');
      if |parts| < 2 || parts[1] == "" then None else Some(parts[1])
  }

  /** `header` is the word `w`, one space, `token`, then `rest`, which is empty or starts with a space. */
  predicate HeaderShape(header: string, w: string, token: string, rest: string)
  {
    ' ' !in w && (rest == [] || rest[0] == ' ') && header == w + [' '] + token + rest
  }


  /**
   * A token is only ever found as the second space-separated word of the
   * header: some word without a space, one space, the token, then the end of
   * the header or another space.
   */
  lemma ExtractTokenSound(header: string, token: string)
    requires ExtractToken(Some(header)) == Some(token)
    ensures token != "" && ' ' !in token
    ensures exists w, rest :: HeaderShape(header, w, token, rest)
  {
    var w, rest := TokenContext(header, token);
  }

  /** The first word and the remainder around the token `ExtractToken` returns. */
  lemma TokenContext(header: string, token: string) returns (w: string, rest: string)
    requires ExtractToken(Some(header)) == Some(token)
    ensures HeaderShape(header, w, token, rest)
  {
    var after;
    w, after := SplitAround(header, ' ');
    rest := SplitHead(after, ' ');
    assert header == w + [' '] + token + rest;
  }

  /**
   * Conversely, a header of that shape yields exactly that token, whatever
   * its first word is: the scheme is never checked to be `Bearer`.
   */
  lemma ExtractTokenComplete(header: string, w: string, token: string, rest: string)
    requires token != "" && ' ' !in token && HeaderShape(header, w, token, rest)
    ensures ExtractToken(Some(header)) == Some(token)
  {
    SplitSecond(w, token, rest, ' ');
  }

  /** `Basic abc` yields the same token as `Bearer abc`. */
  lemma SchemeWordIgnored(token: string)
    requires token != "" && ' ' !in token
    ensures ExtractToken(Some("Basic " + token)) == ExtractToken(Some("Bearer " + token)) == Some(token)
  {
    assert "Basic " + token == "Basic" + [' '] + token + [];
    assert "Bearer " + token == "Bearer" + [' '] + token + [];
    ExtractTokenComplete("Basic " + token, "Basic", token, []);
    ExtractTokenComplete("Bearer " + token, "Bearer", token, []);
  }

  /**
   * What `UserModel.findOne({ id: decoded.userId })` does: find a user, find
   * none, or throw. The filter names a path `id` that `UserSchema` does not
   * declare (documents are keyed by `_id`), so which user comes back is left
   * entirely to the oracle.
   */
  datatype Lookup = Found(user: User) | NoMatch | Failed

  /** `decoded.userId`; a payload that is not an object has no such property. */
  function UserIdOf(decoded: Value): (v: Value)
    ensures decoded.Obj? ==> v == Get(decoded.fields, "userId")
    ensures !decoded.Obj? ==> v == Undefined
  {
    if decoded.Obj? then Get(decoded.fields, "userId") else Undefined
  }

  /** The middleware's decision: answer with an error, or admit the request as `user`. */
  datatype AuthOutcome = Deny(response: Response) | Admit(user: User)

  /**
   * The decision for a request with this header. `verify` is `jwt.verify`
   * with the server's secret (`None` when it throws); `findOne` is the user
   * query. Every exception lands in the `catch`, which answers 403.
   */
  function Authenticate(header: Option<string>, verify: string -> Option<Value>, findOne: Value -> Lookup): (r: AuthOutcome)
    ensures r.Admit? <==>
      && ExtractToken(header).Some?
      && verify(ExtractToken(header).value).Some?
      && findOne(UserIdOf(verify(ExtractToken(header).value).value)).Found?
    ensures r.Admit? ==> r.user == findOne(UserIdOf(verify(ExtractToken(header).value).value)).user
    ensures ExtractToken(header).None? ==> r == Deny(SendError("Access token is required", Unauthorized))
    ensures ExtractToken(header).Some? && verify(ExtractToken(header).value).None?
            ==> r == Deny(SendError("Invalid or expired token", Forbidden))
    ensures r.Deny? ==> r.response.status == Unauthorized || r.response.status == Forbidden
  {
    var token := ExtractToken(header);
    if token.None? then Deny(SendError("Access token is required", Unauthorized))
    else
      var decoded := verify(token.value);
      if decoded.None? then Deny(SendError("Invalid or expired token", Forbidden))
      else
        match findOne(UserIdOf(decoded.value))
        case Failed => Deny(SendError("Invalid or expired token", Forbidden))
        case NoMatch => Deny(SendError("Invalid token", Unauthorized))
        case Found(user) => Admit(user)
  }

  /** A verified token whose lookup finds nobody is refused with 401 "Invalid token". */
  lemma UnknownUserUnauthorized(header: Option<string>, verify: string -> Option<Value>, findOne: Value -> Lookup)
    requires ExtractToken(header).Some? && verify(ExtractToken(header).value).Some?
    requires findOne(UserIdOf(verify(ExtractToken(header).value).value)).NoMatch?
    ensures Authenticate(header, verify, findOne) == Deny(SendError("Invalid token", Unauthorized))
  {
  }

  /**
   * MongoDB's equality match of a stored field against the filter value `v`:
   * `null` (and `undefined`, which is dropped from the filter or sent as
   * `null`) matches a field that is `null` or missing; any other value
   * matches a field equal to it.
   */
  predicate FieldMatches(field: Value, v: Value)
  {
    if v == Null || v == Undefined then field == Null || field == Undefined else field == v
  }

  /**
   * `UserModel.findOne({ id: v })`. The user schema declares no `id` path
   * (`id` is only the `toJSON` virtual), so no stored document has an `id`
   * field. With Mongoose's `strictQuery` on, the unknown path is dropped and
   * the filter `{}` matches the first stored user. With it off, the filter
   * reaches the database: an object value is an operator expression such as
   * `{ $exists: false }`, decided by `operatorFilter`; any other value picks
   * the first document whose `id` field it matches.
   */
  function FindOneById(users: seq<User>, strictQuery: bool, operatorFilter: Value -> Lookup): (find: Value -> Lookup)
    ensures forall v: Value :: !v.Obj? ==> find(v) != Failed
    ensures forall v: Value :: !strictQuery && v.Obj? ==> find(v) == operatorFilter(v)
  {
    assert forall v: Value :: LaxFindOne(users, v) != Failed;
    (v: Value) =>
      if strictQuery then (if users == [] then NoMatch else Found(users[0]))
      else if v.Obj? then operatorFilter(v)
      else LaxFindOne(users, v)
  }

  /** The filter `{ id: v }` as a test of one stored user. */
  function IdFilter(v: Value): User -> bool
  {
    (u: User) => FieldMatches(Get(UserDocument(u), "id"), v)
  }

  /** The first stored user that the filter `{ id: v }` matches, as the database picks it. */
  function LaxFindOne(users: seq<User>, v: Value): (r: Lookup)
    ensures r != Failed
  {
    var at := FirstMatch(users, IdFilter(v));
    if at.None? then NoMatch else Found(users[at.value])
  }

  /** No stored user document has an `id` field. */
  lemma UserDocumentHasNoId(u: User)
    ensures Get(UserDocument(u), "id") == Undefined
  {
    var d := UserDocument(u);
    assert d == [d[0]] + d[1..] && d[1..] == [d[1]] + d[2..] && d[2..] == [d[2]] + d[3..];
    assert d[3..] == [d[3]] + d[4..] && d[4..] == [d[4]];
  }

  /** With `strictQuery` on, the lookup by `id` is the first stored user, whatever the value. */
  lemma StrictFindOneByIdIsFirstUser(users: seq<User>, operatorFilter: Value -> Lookup, v: Value)
    ensures FindOneById(users, true, operatorFilter)(v) == if users == [] then NoMatch else Found(users[0])
  {
  }

  /**
   * With `strictQuery` off, a `null` or missing user id matches every stored
   * user, since none has an `id` field: the lookup is the first stored user.
   */
  lemma {:induction false} LaxFindOneByNullIsFirstUser(users: seq<User>, operatorFilter: Value -> Lookup, v: Value)
    requires v == Null || v == Undefined
    ensures FindOneById(users, false, operatorFilter)(v) == if users == [] then NoMatch else Found(users[0])
  {
    if users != [] {
      UserDocumentHasNoId(users[0]);
      assert IdFilter(v)(users[0]);
      assert FirstMatch(users, IdFilter(v)) == Some(0);
      assert LaxFindOne(users, v) == Found(users[0]);
    } else {
      assert LaxFindOne(users, v) == NoMatch;
    }
  }

  /**
   * With `strictQuery` off, any other value that is not an operator object
   * (a string, a number, a boolean, an array, an ObjectId) matches nobody.
   */
  lemma {:induction false} LaxFindOneByValueIsNobody(users: seq<User>, operatorFilter: Value -> Lookup, v: Value)
    requires v != Null && v != Undefined && !v.Obj?
    ensures FindOneById(users, false, operatorFilter)(v) == NoMatch
  {
    forall j | 0 <= j < |users|
      ensures !IdFilter(v)(users[j])
    {
      UserDocumentHasNoId(users[j]);
    }
    assert FirstMatch(users, IdFilter(v)).None?;
    assert LaxFindOne(users, v) == NoMatch;
  }

  /**
   * With `strictQuery` on, every verified token admits the first stored
   * user, whichever user the token was issued to.
   */
  lemma StrictLookupAdmitsFirstUser(header: Option<string>, verify: string -> Option<Value>, users: seq<User>, operatorFilter: Value -> Lookup)
    requires ExtractToken(header).Some? && verify(ExtractToken(header).value).Some?
    requires users != []
    ensures Authenticate(header, verify, FindOneById(users, true, operatorFilter)) == Admit(users[0])
  {
    StrictFindOneByIdIsFirstUser(users, operatorFilter, UserIdOf(verify(ExtractToken(header).value).value));
  }

  /**
   * With `strictQuery` off, a verified token whose user id is a string (the
   * only kind the server signs) or any other non-null, non-object value is
   * never admitted: the answer is 401 "Invalid token".
   */
  lemma LaxLookupAdmitsNobody(header: Option<string>, verify: string -> Option<Value>, users: seq<User>, operatorFilter: Value -> Lookup)
    requires ExtractToken(header).Some? && verify(ExtractToken(header).value).Some?
    requires var v := UserIdOf(verify(ExtractToken(header).value).value); v != Null && v != Undefined && !v.Obj?
    ensures Authenticate(header, verify, FindOneById(users, false, operatorFilter)) == Deny(SendError("Invalid token", Unauthorized))
  {
    LaxFindOneByValueIsNobody(users, operatorFilter, UserIdOf(verify(ExtractToken(header).value).value));
  }

  /**
   * With `strictQuery` off, a verified token whose payload has a `null` or
   * no `userId` admits the first stored user.
   */
  lemma LaxNullUserIdAdmitsFirstUser(header: Option<string>, verify: string -> Option<Value>, users: seq<User>, operatorFilter: Value -> Lookup)
    requires ExtractToken(header).Some? && verify(ExtractToken(header).value).Some?
    requires var v := UserIdOf(verify(ExtractToken(header).value).value); v == Null || v == Undefined
    requires users != []
    ensures Authenticate(header, verify, FindOneById(users, false, operatorFilter)) == Admit(users[0])
  {
    LaxFindOneByNullIsFirstUser(users, operatorFilter, UserIdOf(verify(ExtractToken(header).value).value));
  }

  /** An Express request as the middleware sees it: the header, and the `user` it may set. */
  class AuthRequest {
    const authorization: Option<string>
    var user: Option<User>

    constructor (authorization: Option<string>)
      ensures this.authorization == authorization && user.None?
    {
      this.authorization := authorization;
      user := None;
    }
  }

  /**
   * `jwtAuthMiddleware(req, res, next)`: returns the response it sends, if
   * any, and whether it calls `next()`. `next()` follows the assignment of
   * `req.user`; a refused request keeps `req.user` as it was.
   */
  method JwtAuthMiddleware(req: AuthRequest, verify: string -> Option<Value>, findOne: Value -> Lookup)
    returns (response: Option<Response>, callsNext: bool)
    modifies req
    ensures callsNext <==> response.None?
    ensures callsNext <==> Authenticate(req.authorization, verify, findOne).Admit?
    ensures callsNext ==> req.user == Some(Authenticate(req.authorization, verify, findOne).user)
    ensures !callsNext ==> response == Some(Authenticate(req.authorization, verify, findOne).response)
    ensures !callsNext ==> req.user == old(req.user)
  {
    var token := ExtractToken(req.authorization);
    if token.None? {
      return Some(SendError("Access token is required", Unauthorized)), false;
    }
    var decoded := verify(token.value);
    if decoded.None? {
      return Some(SendError("Invalid or expired token", Forbidden)), false;
    }
    var found := findOne(UserIdOf(decoded.value));
    if found.Failed? {
      return Some(SendError("Invalid or expired token", Forbidden)), false;
    }
    if found.NoMatch? {
      return Some(SendError("Invalid token", Unauthorized)), false;
    }
    req.user := Some(found.user);
    return None, true;
  }
}

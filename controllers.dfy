/**
 * The request handlers of src/v1/controllers as methods on one store that
 * holds the three MongoDB collections and the Redis cache. Each handler is
 * the source's sequence of lookups and guards ending in at most one write.
 * The caller's id is `req.user._id`, set by the authentication middleware.
 * Library calls whose code is not part of this model (bcrypt, jwt, ObjectId
 * parsing, JSON parsing) are function parameters; clocks and fresh ids are
 * plain parameters.
 */
module Controllers {
  import opened Wrappers
  import opened Text
  import opened Json
  import opened Helper
  import opened UserModel
  import opened PropertyModel
  import opened RecommendationModel
  import opened StoreQueries

  /** `jwt.sign`'s payload at login. */
  function TokenPayload(u: User): (v: Value)
    ensures v.Obj? && Get(v.fields, "userId") == Oid(u.id)
  {
    Obj([("userId", Oid(u.id))])
  }

  /**
   * `{ ...req.body, createdBy: user._id }`: the created property belongs to
   * the caller whatever `createdBy` the body carried, and every other schema
   * path comes from the body.
   */
  lemma {:induction false} CreatedPropertyFollowsBody(body: Fields, caller: string, parseDate: string -> Option<int>, p: Property)
    requires FromDocument(Set(body, "createdBy", Oid(caller)), parseDate) == Some(p)
    ensures p.createdBy == caller
    ensures Get(body, "_id") == Str(p.id)
    ensures Get(body, "title").Str? && p.title == Trim(Get(body, "title").s)
    ensures Get(body, "state").Str? && p.state == Trim(Get(body, "state").s)
    ensures Get(body, "city").Str? && p.city == Trim(Get(body, "city").s)
    ensures Get(body, "price") == Num(p.price) && Get(body, "areaSqFt") == Num(p.areaSqFt)
    ensures Get(body, "bedrooms") == Num(p.bedrooms) && Get(body, "bathrooms") == Num(p.bathrooms)
    ensures Get(body, "type") == Str(PropertyTypeName(p.kind))
    ensures Get(body, "listingType") == Str(ListingTypeName(p.listingType))
  {
    GetSet(body, "createdBy", Oid(caller), "_id");
    GetSet(body, "createdBy", Oid(caller), "title");
    GetSet(body, "createdBy", Oid(caller), "state");
    GetSet(body, "createdBy", Oid(caller), "city");
    GetSet(body, "createdBy", Oid(caller), "price");
    GetSet(body, "createdBy", Oid(caller), "areaSqFt");
    GetSet(body, "createdBy", Oid(caller), "bedrooms");
    GetSet(body, "createdBy", Oid(caller), "bathrooms");
    GetSet(body, "createdBy", Oid(caller), "type");
    GetSet(body, "createdBy", Oid(caller), "listingType");
  }

  /**
   * What `PropertyModel.create(doc)` does against the stored properties:
   * cast and validate the document, then insert it. A document the schema
   * refuses throws a `ValidationError`; an `_id` already stored is refused
   * by the unique index. Whatever it inserts keeps the collection valid.
   */
  function Creation(stored: seq<Property>, doc: Fields, parseDate: string -> Option<int>): (r: Attempt<Property>)
    ensures r.Done? <==> FromDocument(doc, parseDate).Some? && PropertyById(stored, FromDocument(doc, parseDate).value.id).None?
    ensures r.Done? ==> FromDocument(doc, parseDate) == Some(r.value)
    ensures r.Done? && PropertiesValid(stored) ==> PropertiesValid(stored + [r.value])
    ensures FromDocument(doc, parseDate).None? ==> r == Threw(Err("ValidationError"))
    ensures FromDocument(doc, parseDate).Some? && r.Threw? ==> r == Threw(Err("MongoServerError"))
  {
    match FromDocument(doc, parseDate)
    case None => Threw(Err("ValidationError"))
    case Some(p) =>
      if PropertyById(stored, p.id).Some? then Threw(Err("MongoServerError"))
      else
        assert PropertiesValid(stored) ==> PropertiesValid(stored + [p]) by {
          if PropertiesValid(stored) { InsertPropertyKeepsValid(stored, p); }
        }
        Done(p)
  }

  /** Sending the same document again is refused: its `_id` is now stored. */
  lemma CreationNotRepeatable(stored: seq<Property>, doc: Fields, parseDate: string -> Option<int>)
    requires Creation(stored, doc, parseDate).Done?
    ensures Creation(stored + [Creation(stored, doc, parseDate).value], doc, parseDate) == Threw(Err("MongoServerError"))
  {
    var p := Creation(stored, doc, parseDate).value;
    assert (stored + [p])[|stored|].id == p.id;
  }

  /** `createProperty`'s answer: 201 with the created property, or 500 with the error `create` threw. */
  function CreationResponse(created: Attempt<Property>): (r: Response)
    ensures r.status == Created <==> created.Done?
    ensures r.body.Obj? && created.Done? ==> Get(r.body.fields, "data") == PropertyJson(created.value)
    ensures r.body.Obj? && created.Threw? && Truthy(created.error) ==> Get(r.body.fields, "errors") == created.error
  {
    if created.Threw? then SendError("Error occured while creating property", InternalServerError, created.error)
    else SendSuccess("Property Created Successfully", Created, PropertyJson(created.value))
  }

  /** `err.message` when the updated user is `null` and the handler reads `user.favorites`. */
  const NullFavoritesMessage: string := "Cannot read properties of null (reading 'favorites')"

  class Store {
    var users: seq<User>
    var properties: seq<Property>
    var recommendations: seq<Recommendation>
    /** The Redis keys and the string values `redis.get` returns for them. */
    var cache: map<string, string>
    /** The regular expression of the `email` path's `match` validator. */
    const emailPattern: string -> bool
    /** How Mongoose casts a string to a `Date`. */
    const parseDate: string -> Option<int>
    /** Whether an email filter that is neither a string nor an array of strings matches a stored email. */
    const otherEmailFilter: (Value, string) -> bool

    /**
     * The invariant of the three collections. Each handler modifies one
     * collection (and the cache) and keeps that collection's part, so every
     * handler keeps `Valid()`.
     */
    predicate Valid()
      reads this
    {
      && UsersValid(users, emailPattern)
      && PropertiesValid(properties)
      && RecommendationsValid(recommendations)
    }

    /** Empty collections; the cache holds whatever Redis already had. */
    constructor (emailPattern: string -> bool, parseDate: string -> Option<int>,
                 otherEmailFilter: (Value, string) -> bool, cache: map<string, string>)
      ensures Valid()
      ensures users == [] && properties == [] && recommendations == [] && this.cache == cache
      ensures this.emailPattern == emailPattern && this.parseDate == parseDate
      ensures this.otherEmailFilter == otherEmailFilter
    {
      users, properties, recommendations := [], [], [];
      this.cache := cache;
      this.emailPattern, this.parseDate, this.otherEmailFilter := emailPattern, parseDate, otherEmailFilter;
    }

    // ------------------------------------------------------ auth.controller

    /**
     * `registerUser`. `hash` is `bcrypt.hash(password, 10)`; `newId` is the
     * ObjectId `create` assigns. The lookup's filter goes through the email
     * path's `lowercase` and `trim` setters, so it looks for the email exactly
     * as `create` would store it, and the unique index on `email` never
     * refuses what the lookup let through.
     */
    method RegisterUser(body: Fields, newId: string, hash: Value -> Attempt<string>) returns (response: Response)
      requires UsersValid(users, emailPattern)
      modifies this`users
      ensures UsersValid(users, emailPattern)
      ensures response.status == OK || response.status == Conflict || response.status == InternalServerError
      ensures response.status != OK ==> users == old(users)
      ensures response.status == OK ==>
        && |users| == |old(users)| + 1 && users[..|old(users)|] == old(users)
        && var u := users[|old(users)|];
        && Get(body, "email").Str? && u.email == NormalizeEmail(Get(body, "email").s)
        && Get(body, "name").Str? && u.name == Trim(Get(body, "name").s)
        && hash(Get(body, "password")) == Done(u.passwordHash)
        && u.id == newId && u.favorites == []
        && response == SendSuccess("User created successfully", OK, Obj([("user", UserJson(u))]))
      ensures Get(body, "email").Str? && hash(Get(body, "password")).Done?
              && UserByEmail(old(users), NormalizeEmail(Get(body, "email").s)).Some?
              ==> response == SendError("User already exist", Conflict)
      ensures response.status == OK <==>
        && Get(body, "email").Str? && hash(Get(body, "password")).Done?
        && UserByEmail(old(users), NormalizeEmail(Get(body, "email").s)).None?
        && CreateUser(newId, Get(body, "name"), Lower(Get(body, "email").s), hash(Get(body, "password")).value, emailPattern).Some?
        && UserById(old(users), newId).None?
      ensures hash(Get(body, "password")).Threw? || !Get(body, "email").Str?
              ==> response == SendError("Error occured while registering a user")
      ensures response.status == InternalServerError ==> response == SendError("Error occured while registering a user")
    {
      var name, email, password := Get(body, "name"), Get(body, "email"), Get(body, "password");
      var hashed := hash(password);
      if hashed.Threw? || !email.Str? {
        // bcrypt rejects the password, or `email.toLowerCase` is not a function
        return SendError("Error occured while registering a user");
      }
      var lower := Lower(email.s);
      NormalizeLowered(email.s);
      StringFilterFindsStoredEmail(users, lower, otherEmailFilter);
      if UserWithEmail(users, Str(lower), otherEmailFilter).Some? {
        return SendError("User already exist", Conflict);
      }
      var created := CreateUser(newId, name, lower, hashed.value, emailPattern);
      if created.None? || UserById(users, newId).Some? {
        // schema validation fails, or the unique index on `_id` refuses the insert
        return SendError("Error occured while registering a user");
      }
      var u := created.value;
      InsertUserKeepsValid(users, u, emailPattern);
      users := users + [u];
      response := SendSuccess("User created successfully", OK, Obj([("user", UserJson(u))]));
    }

    /**
     * `loginUser`. `sign` is `jwt.sign(payload, secret, { expiresIn })`. The
     * email filter is cast as `UserWithEmail` says. `bcrypt.compare` is not awaited, so
     * `isMatch` is a pending Promise, which is truthy: the password-mismatch
     * branch is never taken and the password is never consulted.
     */
    method LoginUser(body: Fields, sign: (Value, string) -> Attempt<string>) returns (response: Response)
      ensures UserWithEmail(users, Get(body, "email"), otherEmailFilter).None? ==> response == SendError("User not found", NotFound)
      ensures UserWithEmail(users, Get(body, "email"), otherEmailFilter).Some? ==>
        var u := users[UserWithEmail(users, Get(body, "email"), otherEmailFilter).value];
        match sign(TokenPayload(u), "1h")
        case Done(token) =>
          response == SendSuccess("User Logged in successfully", OK, Obj([("token", Str(token)), ("user", UserJson(u))]))
        case Threw(error) =>
          response == SendError("Error occured while logging in", InternalServerError, error)
    {
      var found := UserWithEmail(users, Get(body, "email"), otherEmailFilter);
      if found.None? {
        return SendError("User not found", NotFound);
      }
      var user := users[found.value];
      var signed := sign(TokenPayload(user), "1h");
      if signed.Threw? {
        return SendError("Error occured while logging in", InternalServerError, signed.error);
      }
      response := SendSuccess("User Logged in successfully", OK, Obj([("token", Str(signed.value)), ("user", UserJson(user))]));
    }

    // -------------------------------------------------- property.controller

    /**
     * `createProperty`: `PropertyModel.create({ ...req.body, createdBy: user._id })`.
     * The spread comes first, so the caller's id replaces any `createdBy` in
     * the body. A document the schema refuses, or whose `_id` is taken, makes
     * `create` throw.
     */
    method CreateProperty(caller: string, body: Fields) returns (response: Response)
      requires PropertiesValid(properties)
      modifies this`properties
      ensures PropertiesValid(properties)
      ensures !UserExists(users, caller) ==> response == SendError("User not found", NotFound) && properties == old(properties)
      ensures UserExists(users, caller) ==>
        var created := Creation(old(properties), Set(body, "createdBy", Oid(caller)), parseDate);
        && response == CreationResponse(created)
        && properties == if created.Done? then old(properties) + [created.value] else old(properties)
    {
      if !UserExists(users, caller) {
        return SendError("User not found", NotFound);
      }
      // the found user's `_id` is `caller`
      var created := Create(Set(body, "createdBy", Oid(caller)));
      response := CreationResponse(created);
    }

    /** `PropertyModel.create(doc)`: insert the property `Creation` describes, if any. */
    method Create(doc: Fields) returns (created: Attempt<Property>)
      requires PropertiesValid(properties)
      modifies this`properties
      ensures PropertiesValid(properties)
      ensures created == Creation(old(properties), doc, parseDate)
      ensures properties == if created.Done? then old(properties) + [created.value] else old(properties)
    {
      var cast := FromDocument(doc, parseDate);
      if cast.None? {
        return Threw(Err("ValidationError"));
      }
      var p := cast.value;
      if PropertyById(properties, p.id).Some? {
        return Threw(Err("MongoServerError"));
      }
      InsertPropertyKeepsValid(properties, p);
      properties := properties + [p];
      return Done(p);
    }

    // ------------------------------------------ property.favourite.controller

    /**
     * `addToFavorites`. `objectId` is `new mongoose.Types.ObjectId(...)`; it
     * runs before the `try`, so when it throws the handler's promise rejects
     * and no response is sent (`None`).
     */
    method AddToFavorites(caller: string, param: string, objectId: Value -> Attempt<string>) returns (response: Option<Response>)
      requires UsersValid(users, emailPattern)
      modifies this`users
      ensures UsersValid(users, emailPattern)
      ensures objectId(Str(param)).Threw? ==> response.None? && users == old(users)
      ensures objectId(Str(param)).Done? && PropertyById(properties, objectId(Str(param)).value).None?
              ==> response == Some(SendError("Property not found", NotFound)) && users == old(users)
      ensures objectId(Str(param)).Done? && PropertyById(properties, objectId(Str(param)).value).Some? ==>
        var id := objectId(Str(param)).value;
        match UserById(old(users), caller)
        case None =>
          && users == old(users)
          && response == Some(SendError("Error occured while adding property to favourite", InternalServerError, Str(NullFavoritesMessage)))
        case Some(i) =>
          && users == old(users)[i := old(users)[i].(favorites := AddToSet(old(users)[i].favorites, id))]
          && response == Some(SendSuccess("Property added to favourite successfully", OK,
                                          Obj([("favourites", Arr(PopulateProperties(properties, users[i].favorites)))])))
    {
      var parsed := objectId(Str(param));
      if parsed.Threw? {
        return None;
      }
      var id := parsed.value;
      if PropertyById(properties, id).None? {
        return Some(SendError("Property not found", NotFound));
      }
      var found := UserById(users, caller);
      if found.None? {
        return Some(SendError("Error occured while adding property to favourite", InternalServerError, Str(NullFavoritesMessage)));
      }
      var i := found.value;
      AddToSetOnce(users[i].favorites, id);
      SetFavoritesKeepsValid(users, i, AddToSet(users[i].favorites, id), emailPattern);
      users := users[i := users[i].(favorites := AddToSet(users[i].favorites, id))];
      response := Some(SendSuccess("Property added to favourite successfully", OK,
                                   Obj([("favourites", Arr(PopulateProperties(properties, users[i].favorites)))])));
    }

    /**
     * `removeFromFavorites`: `$pull` on the caller's list, with no check that
     * the property exists and no look at the updated user; it always answers 200.
     */
    method RemoveFromFavorites(caller: string, param: string, objectId: Value -> Attempt<string>) returns (response: Option<Response>)
      requires UsersValid(users, emailPattern)
      modifies this`users
      ensures UsersValid(users, emailPattern)
      ensures objectId(Str(param)).Threw? ==> response.None? && users == old(users)
      ensures objectId(Str(param)).Done? ==>
        && response == Some(SendSuccess("Property removed from favourite successfully", OK))
        && match UserById(old(users), caller)
           case None => users == old(users)
           case Some(i) =>
             users == old(users)[i := old(users)[i].(favorites := Pull(old(users)[i].favorites, objectId(Str(param)).value))]
    {
      var parsed := objectId(Str(param));
      if parsed.Threw? {
        return None;
      }
      var found := UserById(users, caller);
      if found.Some? {
        var i := found.value;
        PullNoDuplicates(users[i].favorites, parsed.value);
        SetFavoritesKeepsValid(users, i, Pull(users[i].favorites, parsed.value), emailPattern);
        users := users[i := users[i].(favorites := Pull(users[i].favorites, parsed.value))];
      }
      response := Some(SendSuccess("Property removed from favourite successfully", OK));
    }

    /** `getFavoriteProperties`: the caller's list, populated. A missing user is reported as a missing property. */
    method GetFavoriteProperties(caller: string) returns (response: Response)
      ensures UserById(users, caller).None? ==> response == SendError("Property not found", NotFound)
      ensures UserById(users, caller).Some? ==>
        var u := users[UserById(users, caller).value];
        && response.status == OK && response.body.Obj?
        && Get(response.body.fields, "data") == Obj([("favorites", Arr(PopulateProperties(properties, u.favorites)))])
        && Get(response.body.fields, "message") == Str("Favorite properties retrieved successfully")
        && response == SendSuccess("Favorite properties retrieved successfully", OK,
                                   Obj([("favorites", Arr(PopulateProperties(properties, u.favorites)))]))
    {
      var found := UserById(users, caller);
      if found.None? {
        return SendError("Property not found", NotFound);
      }
      var favorites := PopulateProperties(properties, users[found.value].favorites);
      var data := Obj([("favorites", Arr(favorites))]);
      assert Truthy(data);
      response := SendSuccess("Favorite properties retrieved successfully", OK, data);
    }

    // --------------------------------------------- recommendation.controller

    /**
     * `sendRecommendation`: the recipient by the email filter `to`, then the duplicate
     * check, then the property, then the owner guard, then the insert and the
     * deletion of the recipient's cache key. The owner guard compares two
     * ObjectId objects loaded separately with `===`: two distinct references,
     * so it never holds. `now` is the clock; `newId` is the new edge's id.
     */
    method SendRecommendation(caller: string, body: Fields, objectId: Value -> Attempt<string>, newId: string, now: int)
      returns (response: Response)
      requires RecommendationsValid(recommendations)
      modifies this`recommendations, this`cache
      ensures RecommendationsValid(recommendations)
      ensures response.status == Created <==> recommendations != old(recommendations)
      ensures response.status != Created ==> recommendations == old(recommendations) && cache == old(cache)
      ensures objectId(Get(body, "propertyId")).Threw? ==>
        response == SendError("Error while sending recommendation", InternalServerError,
                              MessageOf(objectId(Get(body, "propertyId")).error))
      ensures objectId(Get(body, "propertyId")).Done? && UserWithEmail(users, Get(body, "to"), otherEmailFilter).None?
              ==> response == SendError("User does not exist", NotFound)
      ensures objectId(Get(body, "propertyId")).Done? && UserWithEmail(users, Get(body, "to"), otherEmailFilter).Some? ==>
        RecommendOutcome(old(recommendations), recommendations, old(cache), cache, properties, users, caller,
                         users[UserWithEmail(users, Get(body, "to"), otherEmailFilter).value], objectId(Get(body, "propertyId")).value,
                         Get(body, "message"), newId, now, response)
    {
      var parsed := objectId(Get(body, "propertyId"));
      if parsed.Threw? {
        return SendError("Error while sending recommendation", InternalServerError, MessageOf(parsed.error));
      }
      var found := UserWithEmail(users, Get(body, "to"), otherEmailFilter);
      if found.None? {
        return SendError("User does not exist", NotFound);
      }
      response := Recommend(caller, users[found.value], parsed.value, Get(body, "message"), newId, now);
    }

    /**
     * What `sendRecommendation` does once the recipient `to` is known: the
     * outcome `Recommend` promises, over the collections before and after.
     */
    static ghost predicate RecommendOutcome(
      oldRecommendations: seq<Recommendation>, newRecommendations: seq<Recommendation>,
      oldCache: map<string, string>, newCache: map<string, string>,
      props: seq<Property>, people: seq<User>, caller: string, to: User, propertyId: string, message: Value, newId: string, now: int, response: Response)
    {
      var made := NewRecommendation(newId, caller, to.id, propertyId, message, now);
      if HasTriple(oldRecommendations, caller, to.id, propertyId) then
        && response == SendError("You have already recommended the property", Conflict)
        && newRecommendations == oldRecommendations && newCache == oldCache
      else if PropertyById(props, propertyId).None? then
        && response == SendError("Property does not exist", NotFound)
        && newRecommendations == oldRecommendations && newCache == oldCache
      else if made.None? then
        && response == SendError("Error while sending recommendation", InternalServerError, Str("Recommendation validation failed"))
        && newRecommendations == oldRecommendations && newCache == oldCache
      else
        && newRecommendations == oldRecommendations + [made.value]
        && newCache == oldCache - {CacheKey(to.id)}
        && response.status == Created
        && response.body.Obj? && Get(response.body.fields, "message") == Str("Property recommended successfully")
        && response == SendSuccess("Property recommended successfully", Created,
             Obj([("recommendation", RecommendationDocument(made.value, PopulateUser(people, caller), UserJson(to),
                                                            PropertyJson(props[PropertyById(props, propertyId).value])))]))
    }

    /**
     * The rest of `sendRecommendation` for the recipient `to`: the duplicate
     * check, the property, the owner guard, the insert and the deletion of
     * the recipient's cache key. The owner guard compares two ObjectId
     * objects loaded separately with `===`: two distinct references, so it
     * never holds.
     */
    method Recommend(caller: string, to: User, propertyId: string, message: Value, newId: string, now: int)
      returns (response: Response)
      requires RecommendationsValid(recommendations)
      modifies this`recommendations, this`cache
      ensures RecommendationsValid(recommendations)
      ensures response.status == Created <==> recommendations != old(recommendations)
      ensures RecommendOutcome(old(recommendations), recommendations, old(cache), cache, properties, users, caller, to, propertyId, message, newId, now, response)
    {
      if HasTriple(recommendations, caller, to.id, propertyId) {
        return SendError("You have already recommended the property", Conflict);
      }
      var at := PropertyById(properties, propertyId);
      if at.None? {
        return SendError("Property does not exist", NotFound);
      }
      var property := properties[at.value];
      var owned := LoadedIdsStrictlyEqual(property.createdBy, to.id);
      if owned {
        // the 409 "owned by the recommended user" answer is unreachable
        assert false;
      }
      response := Deliver(caller, to, property, message, newId, now);
    }

    /**
     * The end of `sendRecommendation`: save the new edge, populate it, delete
     * the recipient's cache key and answer 201 with the populated edge.
     */
    method Deliver(caller: string, to: User, property: Property, message: Value, newId: string, now: int)
      returns (response: Response)
      requires RecommendationsValid(recommendations) && !HasTriple(recommendations, caller, to.id, property.id)
      modifies this`recommendations, this`cache
      ensures RecommendationsValid(recommendations)
      ensures NewRecommendation(newId, caller, to.id, property.id, message, now).None? ==>
        && response == SendError("Error while sending recommendation", InternalServerError, Str("Recommendation validation failed"))
        && recommendations == old(recommendations) && cache == old(cache)
      ensures NewRecommendation(newId, caller, to.id, property.id, message, now).Some? ==>
        var e := NewRecommendation(newId, caller, to.id, property.id, message, now).value;
        && recommendations == old(recommendations) + [e]
        && cache == old(cache) - {CacheKey(to.id)}
        && response == SendSuccess("Property recommended successfully", Created,
             Obj([("recommendation", RecommendationDocument(e, PopulateUser(users, caller), UserJson(to), PropertyJson(property)))]))
    {
      var saved := Save(newId, caller, to.id, property.id, message, now);
      if saved.None? {
        // `save` rejects a message longer than 500 characters
        return SendError("Error while sending recommendation", InternalServerError, Str("Recommendation validation failed"));
      }
      cache := cache - {CacheKey(to.id)};
      var populated := RecommendationDocument(saved.value, PopulateUser(users, caller), UserJson(to), PropertyJson(property));
      response := SendSuccess("Property recommended successfully", Created, Obj([("recommendation", populated)]));
    }

    /**
     * `new RecommendationModel({ from, to, message, propertyId }).save()`.
     * The schema has no unique index on the triple: the caller's duplicate
     * check is what keeps triples distinct.
     */
    method Save(id: string, from: string, to: string, propertyId: string, message: Value, now: int)
      returns (saved: Option<Recommendation>)
      requires RecommendationsValid(recommendations) && !HasTriple(recommendations, from, to, propertyId)
      modifies this`recommendations
      ensures RecommendationsValid(recommendations)
      ensures saved == NewRecommendation(id, from, to, propertyId, message, now)
      ensures recommendations == if saved.Some? then old(recommendations) + [saved.value] else old(recommendations)
    {
      saved := NewRecommendation(id, from, to, propertyId, message, now);
      if saved.Some? {
        InsertEdgeKeepsValid(recommendations, saved.value);
        recommendations := recommendations + [saved.value];
      }
    }

    /**
     * `receivedRecommedations`: a non-empty cached string is parsed and sent;
     * otherwise the edges addressed to the caller are sent, populated. The
     * cache is read and never written. `parseJson` is `JSON.parse`.
     */
    method ReceivedRecommendations(caller: string, parseJson: string -> Attempt<Value>) returns (response: Response)
      ensures CacheKey(caller) in cache && cache[CacheKey(caller)] != "" ==>
        match parseJson(cache[CacheKey(caller)])
        case Done(v) => response == SendSuccess("Successfully retrieved all property recommendations (from cache)", OK, v)
        case Threw(error) => response == SendError("Error while retrieving recommendations", InternalServerError, MessageOf(error))
      ensures CacheKey(caller) !in cache || cache[CacheKey(caller)] == "" ==>
        && response.status == OK && response.body.Obj?
        && Get(response.body.fields, "data") == Arr(ReceivedDocuments(users, properties, Received(recommendations, caller)))
        && response == SendSuccess("Successfully retrieved all property recommendations", OK,
                                   Arr(ReceivedDocuments(users, properties, Received(recommendations, caller))))
    {
      var key := CacheKey(caller);
      if key in cache && cache[key] != "" {
        var parsed := parseJson(cache[key]);
        if parsed.Threw? {
          return SendError("Error while retrieving recommendations", InternalServerError, MessageOf(parsed.error));
        }
        return SendSuccess("Successfully retrieved all property recommendations (from cache)", OK, parsed.value);
      }
      var documents := Arr(ReceivedDocuments(users, properties, Received(recommendations, caller)));
      response := SendSuccess("Successfully retrieved all property recommendations", OK, documents);
    }
  }
}

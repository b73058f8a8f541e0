# Property listing backend: a Dafny model

This project models the request-handling core of the property-listing
backend, an Express and TypeScript service over MongoDB (through Mongoose)
and Redis. It covers:

- registration, and login (a handler no route mounts);
- property creation;
- the per-user favourites list;
- property recommendations between users, with the Redis cache of
  received recommendations;
- the JWT authentication middleware;
- the Joi validation middlewares and their error mapping;
- the response envelopes;
- the Mongoose schemas of the three collections;
- the Redis reconnect back-off.

The code is modelled as written, including its defects. The model shows
each defect as a provable fact:

- the owner guard in `sendRecommendation` compares ObjectIds with `===`
  and can never hold;
- `bcrypt.compare` is not awaited, so login would never consult the password
  (the login route is not mounted, see below);
- the authentication middleware looks users up by a path named `id`, which
  no stored user has: with Mongoose's `strictQuery` on, every verified token
  admits the first stored user; with it off, a token whose user id is a
  string (the only kind the server signs) is never admitted, and one whose
  user id is `null` or missing admits the first stored user;
- the recommendations read never fills the cache;
- `validateProperty` calls `next()` even after it has sent a 400.

How the pieces fit:

- `Controllers.Store` is a class. It holds the `users`, `properties` and
  `recommendations` collections as sequences and the Redis cache as a
  string map.
- Each handler is a method. It modifies only the collection it writes,
  plus the cache for `sendRecommendation`. Each handler requires and
  ensures that collection's part of `Store.Valid()`, so every handler
  keeps `Valid()`.
- A handler's result is the response it sends, as a `Helper.Response`: a
  status code and a JSON body.
- JavaScript values are `Json.Value`. Objects are ordered key/value
  sequences, read by `Json.Get` through the first binding of a key.
- Joi schemas are data (`Joi.ObjectSchema`), interpreted by
  `Joi.Validate` with Joi's default `abortEarly`, so at most one error
  detail is reported. Each schema's acceptance is proved equal to a
  declarative predicate on the body (`AuthValidation.RegisterBody`,
  `PropertyValidation.CreatePropertyBody`, and so on).
- Mongoose `create` of a property is `PropertyModel.FromDocument`, which
  casts, trims, fills defaults and validates.
- Library calls whose code is not modelled are function parameters of the
  methods that use them:
  - `bcrypt.hash`;
  - `jwt.sign` and `jwt.verify`;
  - `JSON.parse`;
  - ObjectId parsing;
  - the email format check;
  - the user query of the middleware;
  - date parsing.

  Fresh ids and the clock are plain parameters.

## Model

| member | source | states |
|---|---|---|
| Text.TrimStart | src/v1/models/user.model.ts:21 | The result is a suffix of the input. Every character dropped is white space, and the result does not start with white space. |
| Text.TrimEnd | src/v1/models/user.model.ts:21 | The result is a prefix of the input. Every character dropped is white space, and the result does not end with white space. |
| Text.TrimIsTrimmed | src/v1/models/property.model.ts:52 | The value a `trim` setter stores has no white space at either end. |
| Text.TrimOfTrimmed | src/v1/models/property.model.ts:52 | A value with no white space at either end is stored as it is. |
| Text.TrimIdempotent | src/v1/models/property.model.ts:52 | Trimming an already trimmed value changes nothing. |
| Text.Lower | src/v1/controllers/auth.controller.ts:12 | `Lower` maps each ASCII capital to its small letter and keeps every other character, so its length is kept. JavaScript's `toLowerCase` differs, as "## Left out" says. |
| Text.LowerIdempotent | src/v1/models/user.model.ts:29 | A lower-cased email is lower case, and lower-casing it again changes nothing. |
| Text.Split | src/middlewares/jwt.auth.middleware.ts:12 | `split(' ')` yields at least one piece, and no piece contains the separator. |
| Text.SplitJoin | src/middlewares/jwt.auth.middleware.ts:12 | Joining the pieces of `split(' ')` with the separator gives back the original header. |
| Text.Utf16Length | src/v1/validations/auth.validation.ts:4 | A string's JavaScript `length` counts UTF-16 units: at least one and at most two per character. |
| Text.Utf16LengthOfBmp | src/v1/validations/auth.validation.ts:4 | A string of Basic Multilingual Plane characters has one unit per character. |
| Text.Utf16LengthOfAstral | src/v1/validations/auth.validation.ts:4 | A string of characters outside the Basic Multilingual Plane has two units per character. |
| Json.Get | src/v1/controllers/auth.controller.ts:10 | Reading a key that the object does not have yields `undefined`. |
| Json.Set | src/v1/controllers/property.controller.ts:19 | After `{ ...o, k: v }`, the key `k` reads `v`. |
| Json.GetSet | src/v1/controllers/property.controller.ts:19 | After `{ ...o, k: v }`, every other key reads what it read in `o`. |
| Json.Without | src/v1/models/user.model.ts:44 | After `delete ret[k]`, no binding of `k` remains. |
| Json.GetWithout | src/v1/models/user.model.ts:44 | After `delete ret[k]`, `k` reads `undefined` and every other key reads as before. |
| Json.GetAppend | src/v1/models/user.model.ts:42 | Appending a binding for a new key makes that key read the value and leaves every other key as it was. |
| Json.SlotField | src/v1/models/property.model.ts:72 | An unset path is left out of the document, a `null` path is rendered as `null`, and a held value is rendered under its key. |
| Json.Truncate | src/v1/models/property.model.ts:62 | A number read as a timestamp is truncated toward zero: never further from zero than the number, and less than one away from it. |
| Helper.SendSuccess | src/utils/helper.ts:15-21 | The envelope has the given status, `success: true` and the message. It has a `data` key exactly when `data` is truthy, holding `data`, and never an `errors` key. |
| Helper.SendError | src/utils/helper.ts:23-29 | The envelope has the given status, `success: false` and the message. It has an `errors` key exactly when `errors` is truthy, holding `errors`, and never a `data` key. |
| Helper.DefaultStatuses | src/utils/helper.ts:15-23 | With only a message, success answers 200 without a `data` key and error answers 500 without an `errors` key. |
| Helper.SuccessIsNotError | src/utils/helper.ts:15-29 | No success envelope equals any error envelope. |
| Helper.ApiError.constructor | src/utils/helper.ts:7-12 | The error keeps the status code, message and errors it was given, and its name is `ApiError`. |
| RedisConfig.ReconnectStrategy | src/config/redis.ts:8-11 | The strategy gives up with "Retry limit exceeded" exactly when there have been more than 3 retries. Otherwise it waits 100 ms per retry, at most 300 ms, so the 3000 ms cap never applies. |
| RedisConfig.DelayMonotone | src/config/redis.ts:10 | While retrying, the delay never decreases as the retry count grows. |
| PropertyModel.ParsePropertyType | src/v1/models/property.model.ts:3-7 | A string is a property type exactly when it is Apartment, Bungalow or Villa, and it names the member it is read as. |
| PropertyModel.ParseFurnishing | src/v1/models/property.model.ts:9-13 | A string is a furnishing exactly when it is Furnished, Unfurnished or Semi, and it names the member it is read as. |
| PropertyModel.ParseListedBy | src/v1/models/property.model.ts:15-19 | A string is a lister exactly when it is Builder, Owner or Agent, and it names the member it is read as. |
| PropertyModel.ParseListingType | src/v1/models/property.model.ts:21-24 | A string is a listing type exactly when it is Sale or Rent, and it names the member it is read as. |
| PropertyModel.EnumNamesRoundTrip | src/v1/models/property.model.ts:3-24 | Reading the name of any member of the four enumerations gives that member back. |
| PropertyModel.CastString | src/v1/models/property.model.ts:65 | `undefined` leaves the path unset, `null` is stored as `null`, and a string is stored, trimmed when the path has `trim`. Any other value is a cast error. |
| PropertyModel.RequiredString | src/v1/models/property.model.ts:51-52 | A required string path accepts only a non-empty string. With `trim` it stores the trimmed text; without `trim` it stores the string as given. |
| PropertyModel.NonNegative | src/v1/models/property.model.ts:54 | A number path with `min: 0` accepts only numbers that are at least 0, and stores them unchanged. |
| PropertyModel.CastBoolean | src/v1/models/property.model.ts:67 | `undefined` takes the default, `null` is stored as `null`, and a boolean is stored as given. A path with a default is never left unset. |
| PropertyModel.TrimAll | src/v1/models/property.model.ts:60 | Each element of a trimmed string array is the trimmed element. |
| PropertyModel.CastStringArray | src/v1/models/property.model.ts:60-64 | A missing array is stored as `[]` and `null` as `null`. An array of strings is stored with every item trimmed, and every stored item is trimmed. |
| PropertyModel.CastRating | src/v1/models/property.model.ts:66 | A missing rating is stored as 0 and `null` as `null`. A number is accepted exactly when it lies in [0, 5], and is stored as given. |
| PropertyModel.FromDocument | src/v1/models/property.model.ts:50-69 | Every property `create` builds satisfies the schema: non-empty `_id`, trimmed non-empty title, state and city, non-negative numbers, trimmed list items, rating in [0, 5]. It also reflects its document: the same `_id` and `createdBy`, the trimmed strings, the numbers and enumeration names as given, the defaults for absent rating, flag and lists, and `null` kept on the optional paths that carry it. |
| UserModel.NormalizeEmail | src/v1/models/user.model.ts:29-30 | A stored email is trimmed and lower case. |
| UserModel.NormalizeLowered | src/v1/controllers/auth.controller.ts:12-17 | Lower-casing the email before the setters run changes nothing they store. |
| UserModel.CreateUser | src/v1/models/user.model.ts:17-38 | A created user satisfies `UserSchema`. It has the trimmed name, the normalized email, the given hash and no favourites. Every input that meets the name, email, pattern and hash constraints is accepted. |
| UserModel.UserJsonHidesHash | src/v1/models/user.model.ts:41-46 | A user's JSON has no `passwordHash`, has the `id` virtual equal to the user's id, and every other field is as in the document. |
| RecommendationModel.NewRecommendation | src/v1/models/recommendation.model.ts:12-18 | A saved edge satisfies the schema and keeps the given id, from, to and property. `recommendatedAt` is now. A missing message stays unset and `null` is stored as `null`. A string message is accepted exactly when it is at most 500 UTF-16 units after trimming, and is stored trimmed. |
| RecommendationModel.AstralMessageOverLimit | src/v1/models/recommendation.model.ts:17 | A trimmed message of more than 250 characters, all outside the Basic Multilingual Plane, is over the 500-unit limit and refused. |
| RecommendationModel.SchemaAdmitsDuplicateTriples | src/v1/models/recommendation.model.ts:12-18 | Two copies of the same edge both satisfy the schema. The schema itself does not keep (from, to, propertyId) unique. |
| RecommendationModel.LoadedIdsStrictlyEqual | src/v1/controllers/recommendation.controller.ts:30 | Two ObjectIds loaded separately are never `===`, whatever their hex strings. |
| Joi.CheckItem | src/v1/validations/property.validation.ts:15 | An array item passes `Joi.string().trim()` exactly when it is a string that is not blank. |
| Joi.CheckItems | src/v1/validations/property.validation.ts:15 | An array passes its item rule exactly when every item is a non-blank string. |
| Joi.CheckRuleMeaning | src/v1/validations/property.validation.ts:4-30 | A present value passes a rule exactly when it satisfies the rule's declarative meaning: string lengths and email, number bounds, listed values, dates, booleans and string arrays. |
| Joi.CheckKeyMeaning | src/v1/validations/auth.validation.ts:3-17 | A key passes exactly when it is present and satisfies its rule, or it is absent and not required. |
| Joi.FirstKeyErrorMeaning | src/v1/validations/auth.validation.ts:3-17 | Checking the keys in declaration order finds no error exactly when every key passes. |
| Joi.NoKeyErrorOnEmpty | src/v1/validations/property.validation.ts:32-46 | When no key is required, the empty body has no key error. |
| Joi.FirstUnknown | src/v1/validations/property.validation.ts:32-46 | An undeclared key is reported exactly when the body has a key outside the schema, and the key reported is one of them. |
| Joi.Validate | src/v1/validations/auth.validation.ts:3-17 | A refusal carries exactly one error detail. |
| Joi.ValidateMeaning | src/v1/validations/property.validation.ts:4-47 | An object schema accepts a body exactly when every declared key passes, no other key is present, and the body has at least the schema's minimum number of keys. |
| Joi.WithDefaultsGet | src/v1/validations/property.validation.ts:15-26 | The validated value reads the converted body value for a present key (trimmed strings, booleans for boolean words, dates), and the schema's default for an absent one. |
| Joi.DefaultOfFirst | src/v1/validations/property.validation.ts:15-26 | A key's default is the one its own declaration gives. |
| Joi.RuleOfFirst | src/v1/validations/property.validation.ts:4-30 | A key is converted by the rule its own declaration gives. |
| Joi.TrimItems | src/v1/validations/property.validation.ts:15 | Converting a string array trims every item and keeps the number of items. |
| AuthValidation.RegisterSchemaMeaning | src/v1/validations/auth.validation.ts:3-17 | `registerSchema` accepts exactly the bodies with a name of 2 to 50 characters, an email the format check accepts, a password of at least 6 characters, and no other key. |
| AuthValidation.LoginSchemaMeaning | src/v1/validations/auth.validation.ts:19-27 | `loginSchema` accepts exactly the bodies with an email the format check accepts, a non-empty password of any length, and no other key. |
| AuthValidation.RegisterMissingName | src/v1/validations/auth.validation.ts:4-8 | A body without a name is refused with the schema's own "Name is required" at path `name`. |
| AuthValidation.LoginAcceptsShortPassword | src/v1/validations/auth.validation.ts:19-27 | Login accepts a one-character password. |
| AuthValidation.RegisterRejectsShortPassword | src/v1/validations/auth.validation.ts:13-16 | Registration refuses the same password with "Password must be at least 6 characters". |
| PropertyValidation.Optionally | src/v1/validations/property.validation.ts:32-46 | An update key has the create key's name and rule but is optional. |
| PropertyValidation.TextKeyOk | src/v1/validations/property.validation.ts:5 | A `Joi.string().trim()` key passes exactly when its value is a non-blank string, or it is absent and not required. |
| PropertyValidation.AmountKeyOk | src/v1/validations/property.validation.ts:9 | A `Joi.number().min(0)` key passes exactly when its value is a number that is at least 0, or it is absent and not required. |
| PropertyValidation.RatingKeyOk | src/v1/validations/property.validation.ts:25 | The rating key passes exactly when its value is a number in [0, 5], or it is absent and not required. |
| PropertyValidation.ListKeyOk | src/v1/validations/property.validation.ts:15 | A string-array key passes exactly when its value is an array of non-blank strings, or it is absent and not required. |
| PropertyValidation.FlagKeyOk | src/v1/validations/property.validation.ts:26 | A `Joi.boolean()` key passes exactly when its value is a boolean or a boolean word, or it is absent and not required. |
| PropertyValidation.DateKeyOk | src/v1/validations/property.validation.ts:19 | A `Joi.date()` key passes exactly when its value is a date, a number or a parseable string, or it is absent and not required. |
| PropertyValidation.PropertyTypeKeyOk | src/v1/validations/property.validation.ts:6-8 | The `type` key passes exactly when it names a member of the model's `PropertyType`, or it is absent and not required. |
| PropertyValidation.FurnishingKeyOk | src/v1/validations/property.validation.ts:16-18 | The `furnished` key passes exactly when it names a member of the model's `Furnishing`, or it is absent and not required. |
| PropertyValidation.ListedByKeyOk | src/v1/validations/property.validation.ts:20-22 | The `listedBy` key passes exactly when it names a member of the model's `ListedBy`, or it is absent and not required. |
| PropertyValidation.ListingTypeKeyOk | src/v1/validations/property.validation.ts:27-29 | The `listingType` key passes exactly when it names a member of the model's `ListingType`, or it is absent and not required. |
| PropertyValidation.CreateLeadingMeaning | src/v1/validations/property.validation.ts:5-12 | The first six create keys pass exactly when title, state and city are non-blank, type names a property type, and price and area are non-negative numbers. |
| PropertyValidation.CreateMiddleMeaning | src/v1/validations/property.validation.ts:13-22 | The next six create keys pass exactly when bedrooms and bathrooms are non-negative, amenities is absent or a list of non-blank strings, furnished and listedBy name enumeration members, and availableFrom is a date. |
| PropertyValidation.CreateTrailingMeaning | src/v1/validations/property.validation.ts:23-29 | The last five create keys pass exactly when tags, colorTheme, rating and isVerified are absent or well-formed, and listingType names a listing type. |
| PropertyValidation.CreateKeysMeaning | src/v1/validations/property.validation.ts:4-30 | All create keys pass exactly when the twelve required paths are well-formed and each optional path is absent or well-formed. |
| PropertyValidation.CreateSchemaMeaning | src/v1/validations/property.validation.ts:4-30 | `createPropertySchema` accepts exactly the bodies described by `CreatePropertyBody`. The required paths are present and well-formed, the enumerations are exactly the model's, the numbers are non-negative, the rating is in [0, 5], and there are no other keys. |
| PropertyValidation.UpdateLeadingMeaning | src/v1/validations/property.validation.ts:33-39 | The first five update keys pass exactly when each of them is absent or well-formed. |
| PropertyValidation.UpdateTrailingMeaning | src/v1/validations/property.validation.ts:40-46 | The last five update keys pass exactly when each of them is absent or well-formed. |
| PropertyValidation.KeySetNonEmpty | src/v1/validations/property.validation.ts:47 | A body has at least one key exactly when it is not empty. |
| PropertyValidation.UpdateSchemaMeaning | src/v1/validations/property.validation.ts:32-47 | `updatePropertySchema` accepts exactly the non-empty bodies whose keys are all updatable and whose present values are well-formed. |
| PropertyValidation.UpdateRejectsEmpty | src/v1/validations/property.validation.ts:47 | The empty body is refused, with an error at the object itself rather than at a key. |
| PropertyValidation.UpdateKeyNames | src/v1/validations/property.validation.ts:32-46 | The updatable keys are exactly title, price, amenities, furnished, availableFrom, tags, colorTheme, rating, isVerified and listingType. |
| PropertyValidation.UpdateRejectsFixedKey | src/v1/validations/property.validation.ts:32-46 | An update body that carries type, state, city, areaSqFt, bedrooms, bathrooms or listedBy is refused. |
| PropertyValidation.CreateRatingDefault | src/v1/validations/property.validation.ts:25 | The validated create value has rating 0 when the body has none, and the body's rating otherwise. |
| PropertyValidation.CreateFlagDefault | src/v1/validations/property.validation.ts:26 | The validated create value has `isVerified: false` when the body has none, and the boolean a boolean word names when the body has one. |
| PropertyValidation.CreateListDefaults | src/v1/validations/property.validation.ts:15-23 | The validated create value has `[]` for absent amenities and tags. |
| PropertyValidation.CreateTextTrimmed | src/v1/validations/property.validation.ts:5-24 | The validated create value has the trimmed title and colour theme when the body has strings there. |
| ValidationErrors.FieldOf | src/utils/validation.error.ts:8 | The field of an entry is the first path key, and `undefined` for an empty path. |
| ValidationErrors.ErrorEntries | src/utils/validation.error.ts:7-10 | There is one entry per detail, in order. Each entry has `field` equal to `path[0]` and `message` equal to the detail's message. |
| ValidationErrors.ValidationErrorResponse | src/utils/validation.error.ts:5-14 | No error sends nothing. An error sends 400 with `success: false`, "Validation Error" and one entry per detail. |
| AuthValidationMiddleware.Rejection | src/middlewares/auth.validation.middleware.ts:10-15 | A refusal answers 400 "Validation Error" with the mapped entries as `errors`. |
| AuthValidationMiddleware.ValidateRegister | src/middlewares/auth.validation.middleware.ts:7-18 | `next()` is called exactly when the body is a registration body. Otherwise the answer is 400 "Validation Error" with one entry. |
| AuthValidationMiddleware.ValidateLogin | src/middlewares/auth.validation.middleware.ts:20-31 | `next()` is called exactly when the body is a login body. Otherwise the answer is 400 "Validation Error" with one entry. |
| AuthValidationMiddleware.RejectionIsValidationError | src/middlewares/auth.validation.middleware.ts:7-31 | Both middlewares refuse with exactly the response `validationError` builds for the schema's error. |
| AuthValidationMiddleware.MissingNameEntry | src/middlewares/auth.validation.middleware.ts:7-18 | A registration without a name is answered with the single entry `{ field: "name", message: "Name is required" }`. |
| PropertyValidationMiddleware.ValidateProperty | src/middlewares/property.validation.middleware.ts:6-10 | A 400 is sent exactly when the body is not a create body, and it is `validationError`'s response. `next()` is called in every case, with the body unchanged. |
| PropertyValidationMiddleware.RefusedBodyStillForwarded | src/middlewares/property.validation.middleware.ts:8-9 | A refused body gets a 400 and is still passed on to `next()`. |
| PropertyValidationMiddleware.DefaultsNotForwarded | src/middlewares/property.validation.middleware.ts:7 | The validated value would carry rating 0, but the forwarded body still has no rating. |
| StoreQueries.MessageOf | src/v1/controllers/recommendation.controller.ts:44 | `error.message` is the thrown error's reason, and `undefined` for a thrown value that is not an error. |
| StoreQueries.UserById | src/v1/controllers/property.favourite.controller.ts:50 | `findById` finds a user with that id exactly when one exists. |
| StoreQueries.UserByEmail | src/v1/models/user.model.ts:28 | The user whose stored email is exactly the given one, as the unique index compares them: it is found exactly when one exists, and no earlier user has that email. |
| StoreQueries.UserWithEmail | src/v1/controllers/auth.controller.ts:31 | `findOne({ email: filter })` returns the first user the cast filter matches, and none exactly when no user matches. A string filter goes through the `lowercase` and `trim` setters, and an array of strings matches any of its items. |
| StoreQueries.StringFilterFindsStoredEmail | src/v1/controllers/recommendation.controller.ts:16 | A string filter finds exactly the user whose stored email is the filter after the setters. |
| StoreQueries.PropertyById | src/v1/controllers/property.favourite.controller.ts:14 | `findById` finds a property with that id exactly when one exists. |
| StoreQueries.Received | src/v1/controllers/recommendation.controller.ts:51 | Every edge returned is stored and addressed to the caller. |
| StoreQueries.ReceivedComplete | src/v1/controllers/recommendation.controller.ts:51 | Every stored edge addressed to the caller is returned. |
| StoreQueries.ReceivedAppend | src/v1/controllers/recommendation.controller.ts:39-51 | A newly saved edge appears at the end of its recipient's list, and no other list changes. |
| StoreQueries.AddToSetOnce | src/v1/controllers/property.favourite.controller.ts:17-21 | After `$addToSet`, the id occurs exactly once and the list stays duplicate-free. Existing entries keep their order. A present id changes nothing, and an absent id is appended. |
| StoreQueries.PullMeaning | src/v1/controllers/property.favourite.controller.ts:34-38 | After `$pull`, every occurrence of the id is gone, and every other id occurs as often as before. |
| StoreQueries.PullAbsent | src/v1/controllers/property.favourite.controller.ts:34-39 | Pulling an id that is not in the list leaves it unchanged. |
| StoreQueries.PullConcat | src/v1/controllers/property.favourite.controller.ts:34-38 | `$pull` works element by element: pulling from a concatenation is pulling from each part. |
| StoreQueries.PullNoDuplicates | src/v1/controllers/property.favourite.controller.ts:34-38 | `$pull` keeps a duplicate-free list duplicate-free. |
| StoreQueries.PopulateProperties | src/v1/controllers/property.favourite.controller.ts:21 | `populate('favorites')` returns no more entries than ids, and one per id when every id is a stored property. |
| StoreQueries.PopulateUser | src/v1/controllers/recommendation.controller.ts:40 | A populated user reference is `null` exactly when the user does not exist. |
| StoreQueries.PopulateProperty | src/v1/controllers/recommendation.controller.ts:40 | A populated property reference is `null` exactly when the property does not exist. |
| StoreQueries.ReceivedDocuments | src/v1/controllers/recommendation.controller.ts:51-53 | The populated read returns one document per received edge, in order. Each has the edge's fields, `from` and `propertyId` populated, and `to` left as its ObjectId. |
| StoreQueries.CacheKeyInjective | src/v1/controllers/recommendation.controller.ts:54 | Distinct users have distinct cache keys, so deleting one user's key leaves every other user's key alone. |
| StoreQueries.InsertUserKeepsValid | src/v1/models/user.model.ts:25-32 | Inserting a valid user whose id and email are new keeps ids and emails unique and every user valid. |
| StoreQueries.SetFavoritesKeepsValid | src/v1/controllers/property.favourite.controller.ts:17-21 | Replacing a user's favourites with a duplicate-free list keeps the users collection valid. |
| StoreQueries.InsertPropertyKeepsValid | src/v1/controllers/property.controller.ts:19 | Inserting a valid property with a new `_id` keeps ids unique and every property valid. |
| StoreQueries.InsertEdgeKeepsValid | src/v1/controllers/recommendation.controller.ts:21-39 | Saving a valid edge whose triple is new keeps every triple stored at most once. |
| StoreQueries.StoredEmailFindsUser | src/v1/controllers/auth.controller.ts:31 | Looking up a stored user's email finds exactly that user. |
| StoreQueries.NormalizedEmailFindsUser | src/v1/controllers/auth.controller.ts:31 | Login finds a stored user under any spelling of the email that the setters turn into the stored one: other capitals or surrounding white space. |
| JwtAuth.ExtractToken | src/middlewares/jwt.auth.middleware.ts:12 | A token is found only in a header, and it is non-empty and has no space. |
| JwtAuth.ExtractTokenSound | src/middlewares/jwt.auth.middleware.ts:12 | A token found is the second space-separated word: one word, one space, the token, then the end or another space. |
| JwtAuth.ExtractTokenComplete | src/middlewares/jwt.auth.middleware.ts:12 | Every header of that shape yields exactly that token, whatever the first word is. |
| JwtAuth.SchemeWordIgnored | src/middlewares/jwt.auth.middleware.ts:10-12 | `Basic abc` yields the same token as `Bearer abc`. |
| JwtAuth.UserIdOf | src/middlewares/jwt.auth.middleware.ts:19 | `decoded.userId` is the payload's `userId`, and `undefined` when the payload is not an object. |
| JwtAuth.Authenticate | src/middlewares/jwt.auth.middleware.ts:9-31 | A request is admitted exactly when a token is present, verifies, and the lookup finds a user; it is admitted as that user. No token gives 401 "Access token is required". A token that fails verification gives 403 "Invalid or expired token". Every refusal is a 401 or a 403. |
| JwtAuth.FindOneById | src/middlewares/jwt.auth.middleware.ts:19 | The lookup by `id` throws only through an operator object. With `strictQuery` off, an object value is decided by the operator oracle. |
| JwtAuth.LaxFindOne | src/middlewares/jwt.auth.middleware.ts:19 | The database's lookup of `{ id: v }` never throws. |
| JwtAuth.UserDocumentHasNoId | src/v1/models/user.model.ts:17-38 | The user schema declares no `id` path, so a stored user document has no `id` field. |
| JwtAuth.StrictFindOneByIdIsFirstUser | src/middlewares/jwt.auth.middleware.ts:19 | With `strictQuery` on, the lookup is the first stored user, whatever the user id. |
| JwtAuth.LaxFindOneByNullIsFirstUser | src/middlewares/jwt.auth.middleware.ts:19 | With `strictQuery` off, a `null` or missing user id matches every stored user, so the lookup is the first one. |
| JwtAuth.LaxFindOneByValueIsNobody | src/middlewares/jwt.auth.middleware.ts:19 | With `strictQuery` off, a user id that is not `null`, missing or an object, such as a string, matches nobody. |
| JwtAuth.StrictLookupAdmitsFirstUser | src/middlewares/jwt.auth.middleware.ts:18-25 | With `strictQuery` on, every verified token admits the first stored user, whoever the token was issued to. |
| JwtAuth.LaxLookupAdmitsNobody | src/middlewares/jwt.auth.middleware.ts:18-23 | With `strictQuery` off, every verified token whose user id is a string, or any other value that is not `null`, missing or an object, gets 401 "Invalid token". |
| JwtAuth.LaxNullUserIdAdmitsFirstUser | src/middlewares/jwt.auth.middleware.ts:18-25 | With `strictQuery` off, a verified token whose payload has a `null` or no `userId` admits the first stored user. |
| JwtAuth.UnknownUserUnauthorized | src/middlewares/jwt.auth.middleware.ts:19-23 | A verified token whose lookup finds nobody gives 401 "Invalid token". |
| JwtAuth.AuthRequest.constructor | src/types/auth/authTypes.ts:4-6 | A request starts with its header and no user. |
| JwtAuth.JwtAuthMiddleware | src/middlewares/jwt.auth.middleware.ts:9-31 | `next()` is called exactly when no response is sent, and exactly when `Authenticate` admits. `req.user` is set to the admitted user first. A refused request gets `Authenticate`'s response and keeps its `user`. |
| Controllers.TokenPayload | src/v1/controllers/auth.controller.ts:43 | The login token's payload carries `userId` equal to the user's `_id`. |
| Controllers.CreatedPropertyFollowsBody | src/v1/controllers/property.controller.ts:19 | A created property belongs to the caller whatever `createdBy` the body carried. Its `_id`, title, state, city, numbers, type and listing type come from the body. |
| Controllers.Creation | src/v1/controllers/property.controller.ts:19 | `create` inserts exactly when the document passes the schema and its `_id` is not yet stored, and it inserts the property the schema builds. A refused document throws a ValidationError; a taken `_id` throws a MongoServerError. An insert keeps the collection valid. |
| Controllers.CreationNotRepeatable | src/v1/models/property.model.ts:51 | Creating the same document again throws, because its `_id` is now taken. |
| Controllers.CreationResponse | src/v1/controllers/property.controller.ts:21-24 | The answer is 201 exactly when `create` succeeded, and it then carries the property as `data`. Otherwise the thrown error is the `errors`. |
| Controllers.Store.RegisterUser | src/v1/controllers/auth.controller.ts:8-26 | The answer is 200, 409 or 500. It is 200 exactly when: the email is a string; hashing succeeds; no stored email equals the normalized email; the schema accepts the user; and the id is free. Then exactly one user is appended: normalized email, trimmed name, the hash, the new id, no favourites; the answer carries that user. A taken normalized email gives 409. A failed hash or non-string email gives the 500. Any other answer changes no user. |
| Controllers.Store.LoginUser | src/v1/controllers/auth.controller.ts:28-53 | The first user the cast email filter matches gets a token signed over `{ userId }` for 1h, and the user. No match gives 404. The password plays no part, and nothing in the store changes. |
| Controllers.Store.CreateProperty | src/v1/controllers/property.controller.ts:8-26 | A caller who is not a user gets 404 "User not found" and nothing changes. Otherwise the outcome is `Creation`'s on the body with `createdBy` set to the caller. The answer is `CreationResponse`'s, and the property is appended exactly when it was created. |
| Controllers.Store.Create | src/v1/controllers/property.controller.ts:19 | The result is `Creation`'s. The created property is appended, and nothing changes when `create` throws. |
| Controllers.Store.AddToFavorites | src/v1/controllers/property.favourite.controller.ts:8-27 | An id that does not parse sends nothing. A missing property gives 404 and changes nothing. A missing caller gives the 500 of reading `favorites` of `null`. Otherwise only the caller's list changes, by `$addToSet`, and the answer carries the populated list. |
| Controllers.Store.RemoveFromFavorites | src/v1/controllers/property.favourite.controller.ts:29-43 | An id that does not parse sends nothing. Otherwise the answer is always 200, and only the caller's list changes, by `$pull`. The property is never checked to exist. |
| Controllers.Store.GetFavoriteProperties | src/v1/controllers/property.favourite.controller.ts:47-57 | A missing caller gives 404 "Property not found". Otherwise the answer is the whole 200 success envelope, with the caller's populated list as `data.favorites`. Nothing changes. |
| Controllers.Store.SendRecommendation | src/v1/controllers/recommendation.controller.ts:11-46 | A property id that does not parse gives 500 with its message. No user matched by the cast email filter `to` gives 404 "User does not exist". Otherwise the outcome is `Recommend`'s. Only a 201 changes the edges, and any other answer leaves the edges and the cache alone. |
| Controllers.Store.Recommend | src/v1/controllers/recommendation.controller.ts:21-42 | An existing triple gives 409 before the property is looked at. A missing property gives 404. A message that is over 500 UTF-16 units, or is neither absent, `null` nor a string, gives 500. Every other request, whose message is absent, `null` or a string within the limit, gives 201, even when the recipient owns the property: it appends exactly the new edge, deletes only the recipient's cache key, and answers with the whole success envelope carrying the edge with `from`, `to` and `propertyId` populated. Only a 201 changes anything. |
| Controllers.Store.Deliver | src/v1/controllers/recommendation.controller.ts:33-42 | A valid edge is appended, the recipient's cache key is deleted, and the answer is 201 with the populated edge. A refused message gives 500 and changes nothing. An absent or `null` message is stored as it is. |
| Controllers.Store.Save | src/v1/controllers/recommendation.controller.ts:33-39 | `save` stores the edge the schema builds, if any, and nothing else, and keeps triples distinct. |
| Controllers.Store.ReceivedRecommendations | src/v1/controllers/recommendation.controller.ts:48-64 | A non-empty cached string is parsed and returned, and a parse failure gives 500. Otherwise the answer is the whole 200 success envelope, with exactly the caller's received edges, populated, as `data`. The cache is never written. |

## Left out

- Logging is not modelled: the logger (src/utils/logger.ts) and the `console.log` calls have no effect on responses.
- The API documentation (src/config/swagger.ts), the server bootstrap (src/server.ts) and the routers are not modelled.
  - property.route.ts:29 lists `validateProperty` before `jwtAuthMiddleware` and `createProperty`. The middlewares and the handler are modelled one by one; their chaining through `next()` is not composed into one method.
  - auth.route.ts:32 mounts only `/register`. `loginUser` and `validateLogin` are reachable from no route; they are modelled as if they were mounted.
  - The recommendation router is never mounted (server.ts:51-53), so its handlers are modelled as if it were.
- src/types/auth/property.ts is a type that nothing builds; it is not part of this model.
- Database and Redis connections are not modelled: `connectDB`, `connectRedis`, `disconnectRedis` and their events.
  - The collections and the cache are in-memory values.
  - A Redis or MongoDB failure during a query is not modelled.
  - The only thrown values modelled are the validation, duplicate-key, hashing, signing, parsing and null-dereference errors the handlers show.
- `redis.del` is assumed to succeed.
- Some library calls are oracles given as parameters; their behaviour is what the parameter returns:
  - `bcrypt.hash`;
  - `jwt.sign` and `jwt.verify` with the secret and expiry;
  - `JSON.parse`;
  - ObjectId parsing;
  - Joi's `email()` and date parsing;
  - the user schema's email regular expression.
- Ids in query filters are compared as strings; their cast to ObjectId is not modelled.
- StoreQueries.UserWithEmail: only string filters and arrays of strings are cast as Mongoose casts them. Any other filter (an operator object, a number, a boolean, `null`) is decided by an oracle, the store's `otherEmailFilter`.
- StoreQueries.UserByEmail: it compares stored emails exactly, as the unique index does; a filter goes through `UserWithEmail` first.
- Joi's conversions are modelled only for trimmed strings, string-array items, the boolean words "true" and "false", and dates. Numeric strings are not converted to numbers; a value of the wrong JSON type is refused.
- Mongoose's casts between types are modelled only for booleans (`CastBoolean`'s castable words and numbers) and for numbers as dates. A number or boolean given for a `String` path is refused rather than turned into text, and ObjectIds are not converted to strings.
- Text.Lower: only the ASCII capitals A-Z are lower-cased. JavaScript's `toLowerCase` also maps other Unicode capitals, some to more than one character, so the length can change; that mapping is not modelled.
- UserModel.NormalizeEmail: it inherits `Text.Lower`'s ASCII-only lower-casing.
- Joi and Mongoose error message texts outside the schemas' own `messages` are abstract.
  - `PropertyValidation.UpdateRejectsEmpty` states where the error is, not its text.
  - A save that fails validation reports "Recommendation validation failed" without the per-path suffix Mongoose adds.
- JSON serialisation of responses is not modelled. `undefined` fields are kept in the envelope values rather than dropped.
- Numbers are mathematical reals, not IEEE doubles, and dates are abstract integers.
- The `timestamps: true` fields (`createdAt`, `updatedAt`) of users and properties are not stored, and no document carries the version key `__v`.
- RecommendationModel.RecommendationDocument: the `id` virtual is not added, because the recommendation schema does not enable `toJSON` virtuals. Its `__v` is not stored either.
- Requests are handled one at a time, so no two handlers interleave.
- JwtAuth.Authenticate: the user lookup is a parameter, so its contract holds for any lookup. `UserModel.findOne({ id })` itself is modelled by `FindOneById` for both settings of `strictQuery`, because the Mongoose version, which decides the default, is not part of this model. With `strictQuery` off, an object user id is read by MongoDB as an operator expression; its result is the oracle `operatorFilter`, not modelled.
- Controllers.Store.Recommend: the 409 answer of the owner guard is never produced, because the guard cannot hold. The contract says every other request with an absent, `null` or within-limit string message succeeds, and only that guard's message is absent from it.
- Controllers.Store.ReceivedRecommendations: the populated `from` and `propertyId` of the database read are modelled; a thrown `find` is not.
- UserModel.UserJson: the `toJSON` transform deletes `passwordHash` from the output object in place. It is modelled as a function from the user to a new JSON value.
- StoreQueries.PopulateProperties: favourites whose property no longer exists are dropped, as `populate` does. The contract states only the length bounds and leaves the order of the rest to the definition.

/**
 * `createPropertySchema` and `updatePropertySchema` of
 * src/v1/validations/property.validation.ts as Joi schema values, with what
 * each accepts stated declaratively in terms of the property model.
 */
module PropertyValidation {
  import opened Wrappers
  import opened Text
  import opened Json
  import opened Joi
  import opened PropertyModel

  const TrimmedString: Rule := JString(true, None, None, false)
  const NonNegativeNumber: Rule := JNumber(Some(0), None)
  const RatingNumber: Rule := JNumber(Some(0), Some(5))

  // The keys of `createPropertySchema`, in declaration order.
  const TitleKey: KeySchema := KeySchema("title", TrimmedString, Required, map[])
  const TypeKey: KeySchema := KeySchema("type", JValid(PropertyTypeValues), Required, map[])
  const PriceKey: KeySchema := KeySchema("price", NonNegativeNumber, Required, map[])
  const StateKey: KeySchema := KeySchema("state", TrimmedString, Required, map[])
  const CityKey: KeySchema := KeySchema("city", TrimmedString, Required, map[])
  const AreaSqFtKey: KeySchema := KeySchema("areaSqFt", NonNegativeNumber, Required, map[])
  const BedroomsKey: KeySchema := KeySchema("bedrooms", NonNegativeNumber, Required, map[])
  const BathroomsKey: KeySchema := KeySchema("bathrooms", NonNegativeNumber, Required, map[])
  const AmenitiesKey: KeySchema := KeySchema("amenities", JStringArray, Default(Arr([])), map[])
  const FurnishedKey: KeySchema := KeySchema("furnished", JValid(FurnishingValues), Required, map[])
  const AvailableFromKey: KeySchema := KeySchema("availableFrom", JDate, Required, map[])
  const ListedByKey: KeySchema := KeySchema("listedBy", JValid(ListedByValues), Required, map[])
  const TagsKey: KeySchema := KeySchema("tags", JStringArray, Default(Arr([])), map[])
  const ColorThemeKey: KeySchema := KeySchema("colorTheme", TrimmedString, Optional, map[])
  const RatingKey: KeySchema := KeySchema("rating", RatingNumber, Default(Num(0.0)), map[])
  const IsVerifiedKey: KeySchema := KeySchema("isVerified", JBoolean, Default(Bool(false)), map[])
  const ListingTypeKey: KeySchema := KeySchema("listingType", JValid(ListingTypeValues), Required, map[])

  // `createPropertySchema`'s keys in declaration order, in three runs.
  const CreateLeading: seq<KeySchema> := [TitleKey, TypeKey, PriceKey, StateKey, CityKey, AreaSqFtKey]
  const CreateMiddle: seq<KeySchema> := [BedroomsKey, BathroomsKey, AmenitiesKey, FurnishedKey, AvailableFromKey, ListedByKey]
  const CreateTrailing: seq<KeySchema> := [TagsKey, ColorThemeKey, RatingKey, IsVerifiedKey, ListingTypeKey]

  const CreatePropertySchema: ObjectSchema := ObjectSchema(CreateLeading + CreateMiddle + CreateTrailing, 0)

  /** `.optional()` in place of `.required()` or `.default(...)`. */
  function Optionally(ks: KeySchema): (r: KeySchema)
    ensures r.key == ks.key && r.rule == ks.rule && r.presence == Optional
  {
    ks.(presence := Optional)
  }

  // `updatePropertySchema`'s keys: ten of the create keys, all optional, in two runs.
  const UpdateLeading: seq<KeySchema> :=
    [Optionally(TitleKey), Optionally(PriceKey), Optionally(AmenitiesKey), Optionally(FurnishedKey), Optionally(AvailableFromKey)]
  const UpdateTrailing: seq<KeySchema> :=
    [Optionally(TagsKey), Optionally(ColorThemeKey), Optionally(RatingKey), Optionally(IsVerifiedKey), Optionally(ListingTypeKey)]

  /** `updatePropertySchema`, whose `.min(1)` asks for at least one key. */
  const UpdatePropertySchema: ObjectSchema := ObjectSchema(UpdateLeading + UpdateTrailing, 1)

  /** The keys a create body may carry: title, type, price, state, city, areaSqFt, bedrooms, bathrooms, amenities, furnished, availableFrom, listedBy, tags, colorTheme, rating, isVerified, listingType. */
  const CreateKeys: seq<string> := SchemaKeys(CreatePropertySchema.keys)

  /** The keys an update body may carry: title, price, amenities, furnished, availableFrom, tags, colorTheme, rating, isVerified, listingType. */
  const UpdateKeys: seq<string> := SchemaKeys(UpdatePropertySchema.keys)

  /** The keys a create body needs and an update body may not carry. */
  const FixedKeys: seq<string> := ["type", "state", "city", "areaSqFt", "bedrooms", "bathrooms", "listedBy"]

  predicate Absent(v: Value) { v == Undefined }
  predicate Filled(v: Value) { v.Str? && Trim(v.s) != "" }
  predicate Amount(v: Value) { v.Num? && v.n >= 0.0 }
  predicate InRating(v: Value) { v.Num? && 0.0 <= v.n <= 5.0 }
  predicate TextList(v: Value) { v.Arr? && forall i :: 0 <= i < |v.items| ==> Filled(v.items[i]) }
  predicate Flag(v: Value) { v.Bool? || (v.Str? && BooleanText(v.s)) }
  predicate When(v: Value, o: Oracles) { v.Date? || v.Num? || (v.Str? && o.parseDate(v.s).Some?) }
  predicate IsPropertyType(v: Value) { v.Str? && ParsePropertyType(v.s).Some? }
  predicate IsFurnishing(v: Value) { v.Str? && ParseFurnishing(v.s).Some? }
  predicate IsListedBy(v: Value) { v.Str? && ParseListedBy(v.s).Some? }
  predicate IsListingType(v: Value) { v.Str? && ParseListingType(v.s).Some? }

  /** The title, numbers, enumerations and date every create body carries. */
  predicate CreateRequired(body: Fields, o: Oracles)
  {
    && Filled(Get(body, "title")) && IsPropertyType(Get(body, "type")) && Amount(Get(body, "price"))
    && Filled(Get(body, "state")) && Filled(Get(body, "city"))
    && Amount(Get(body, "areaSqFt")) && Amount(Get(body, "bedrooms")) && Amount(Get(body, "bathrooms"))
    && IsFurnishing(Get(body, "furnished")) && When(Get(body, "availableFrom"), o)
    && IsListedBy(Get(body, "listedBy")) && IsListingType(Get(body, "listingType"))
  }

  /** The keys both schemas leave optional, each well-formed when present. */
  predicate OptionalExtras(body: Fields)
  {
    && (Absent(Get(body, "amenities")) || TextList(Get(body, "amenities")))
    && (Absent(Get(body, "tags")) || TextList(Get(body, "tags")))
    && (Absent(Get(body, "colorTheme")) || Filled(Get(body, "colorTheme")))
    && (Absent(Get(body, "rating")) || InRating(Get(body, "rating")))
    && (Absent(Get(body, "isVerified")) || Flag(Get(body, "isVerified")))
  }

  /**
   * A create body: a non-blank title, state and city; a property type,
   * furnishing, lister and listing type that name members of the model's
   * enumerations; non-negative price, area, bedroom and bathroom counts; an
   * availability date; and, when present, lists of non-blank strings, a
   * non-blank colour theme, a rating between 0 and 5 and a boolean flag. No
   * other key.
   */
  predicate CreatePropertyBody(body: Fields, o: Oracles)
  {
    && CreateRequired(body, o)
    && OptionalExtras(body)
    && forall i :: 0 <= i < |body| ==> body[i].0 in CreateKeys
  }

  /**
   * An update body: at least one key, only the updatable keys, each as a
   * create body would have it when present.
   */
  predicate UpdatePropertyBody(body: Fields, o: Oracles)
  {
    && body != []
    && (Absent(Get(body, "title")) || Filled(Get(body, "title")))
    && (Absent(Get(body, "price")) || Amount(Get(body, "price")))
    && (Absent(Get(body, "furnished")) || IsFurnishing(Get(body, "furnished")))
    && (Absent(Get(body, "availableFrom")) || When(Get(body, "availableFrom"), o))
    && (Absent(Get(body, "listingType")) || IsListingType(Get(body, "listingType")))
    && OptionalExtras(body)
    && forall i :: 0 <= i < |body| ==> body[i].0 in UpdateKeys
  }

  /** What one key demands of the body, given what its rule demands of a present value. */
  predicate Reads(ks: KeySchema, body: Fields, holds: bool)
  {
    if Absent(Get(body, ks.key)) then !ks.presence.Required? else holds
  }

  lemma TextKeyOk(ks: KeySchema, body: Fields, o: Oracles)
    requires ks.rule == TrimmedString
    ensures KeyOk(ks, body, o) <==> Reads(ks, body, Filled(Get(body, ks.key)))
  {
  }

  lemma AmountKeyOk(ks: KeySchema, body: Fields, o: Oracles)
    requires ks.rule == NonNegativeNumber
    ensures KeyOk(ks, body, o) <==> Reads(ks, body, Amount(Get(body, ks.key)))
  {
  }

  lemma RatingKeyOk(ks: KeySchema, body: Fields, o: Oracles)
    requires ks.rule == RatingNumber
    ensures KeyOk(ks, body, o) <==> Reads(ks, body, InRating(Get(body, ks.key)))
  {
  }

  lemma ListKeyOk(ks: KeySchema, body: Fields, o: Oracles)
    requires ks.rule == JStringArray
    ensures KeyOk(ks, body, o) <==> Reads(ks, body, TextList(Get(body, ks.key)))
  {
  }

  lemma FlagKeyOk(ks: KeySchema, body: Fields, o: Oracles)
    requires ks.rule == JBoolean
    ensures KeyOk(ks, body, o) <==> Reads(ks, body, Flag(Get(body, ks.key)))
  {
  }

  lemma DateKeyOk(ks: KeySchema, body: Fields, o: Oracles)
    requires ks.rule == JDate
    ensures KeyOk(ks, body, o) <==> Reads(ks, body, When(Get(body, ks.key), o))
  {
  }

  // `valid(...Object.values(E))` admits exactly the names the model's `Parse` functions accept.
  lemma PropertyTypeKeyOk(ks: KeySchema, body: Fields, o: Oracles)
    requires ks.rule == JValid(PropertyTypeValues)
    ensures KeyOk(ks, body, o) <==> Reads(ks, body, IsPropertyType(Get(body, ks.key)))
  {
    var v := Get(body, ks.key);
    if v.Str? { var p := ParsePropertyType(v.s); }
  }

  lemma FurnishingKeyOk(ks: KeySchema, body: Fields, o: Oracles)
    requires ks.rule == JValid(FurnishingValues)
    ensures KeyOk(ks, body, o) <==> Reads(ks, body, IsFurnishing(Get(body, ks.key)))
  {
    var v := Get(body, ks.key);
    if v.Str? { var p := ParseFurnishing(v.s); }
  }

  lemma ListedByKeyOk(ks: KeySchema, body: Fields, o: Oracles)
    requires ks.rule == JValid(ListedByValues)
    ensures KeyOk(ks, body, o) <==> Reads(ks, body, IsListedBy(Get(body, ks.key)))
  {
    var v := Get(body, ks.key);
    if v.Str? { var p := ParseListedBy(v.s); }
  }

  lemma ListingTypeKeyOk(ks: KeySchema, body: Fields, o: Oracles)
    requires ks.rule == JValid(ListingTypeValues)
    ensures KeyOk(ks, body, o) <==> Reads(ks, body, IsListingType(Get(body, ks.key)))
  {
    var v := Get(body, ks.key);
    if v.Str? { var p := ParseListingType(v.s); }
  }

  lemma CreateLeadingMeaning(body: Fields, o: Oracles)
    ensures AllKeysOk(CreateLeading, body, o) <==>
      && Filled(Get(body, "title")) && IsPropertyType(Get(body, "type")) && Amount(Get(body, "price"))
      && Filled(Get(body, "state")) && Filled(Get(body, "city")) && Amount(Get(body, "areaSqFt"))
  {
    AllKeysOkSix(TitleKey, TypeKey, PriceKey, StateKey, CityKey, AreaSqFtKey, body, o);
    TextKeyOk(TitleKey, body, o);
    PropertyTypeKeyOk(TypeKey, body, o);
    AmountKeyOk(PriceKey, body, o);
    TextKeyOk(StateKey, body, o);
    TextKeyOk(CityKey, body, o);
    AmountKeyOk(AreaSqFtKey, body, o);
  }

  lemma CreateMiddleMeaning(body: Fields, o: Oracles)
    ensures AllKeysOk(CreateMiddle, body, o) <==>
      && Amount(Get(body, "bedrooms")) && Amount(Get(body, "bathrooms"))
      && (Absent(Get(body, "amenities")) || TextList(Get(body, "amenities")))
      && IsFurnishing(Get(body, "furnished")) && When(Get(body, "availableFrom"), o)
      && IsListedBy(Get(body, "listedBy"))
  {
    AllKeysOkSix(BedroomsKey, BathroomsKey, AmenitiesKey, FurnishedKey, AvailableFromKey, ListedByKey, body, o);
    AmountKeyOk(BedroomsKey, body, o);
    AmountKeyOk(BathroomsKey, body, o);
    ListKeyOk(AmenitiesKey, body, o);
    FurnishingKeyOk(FurnishedKey, body, o);
    ListedByKeyOk(ListedByKey, body, o);
    DateKeyOk(AvailableFromKey, body, o);
  }

  lemma CreateTrailingMeaning(body: Fields, o: Oracles)
    ensures AllKeysOk(CreateTrailing, body, o) <==>
      && (Absent(Get(body, "tags")) || TextList(Get(body, "tags")))
      && (Absent(Get(body, "colorTheme")) || Filled(Get(body, "colorTheme")))
      && (Absent(Get(body, "rating")) || InRating(Get(body, "rating")))
      && (Absent(Get(body, "isVerified")) || Flag(Get(body, "isVerified")))
      && IsListingType(Get(body, "listingType"))
  {
    AllKeysOkFive(TagsKey, ColorThemeKey, RatingKey, IsVerifiedKey, ListingTypeKey, body, o);
    ListKeyOk(TagsKey, body, o);
    TextKeyOk(ColorThemeKey, body, o);
    RatingKeyOk(RatingKey, body, o);
    FlagKeyOk(IsVerifiedKey, body, o);
    ListingTypeKeyOk(ListingTypeKey, body, o);
  }

  lemma CreateKeysMeaning(body: Fields, o: Oracles)
    ensures AllKeysOk(CreatePropertySchema.keys, body, o) <==> CreateRequired(body, o) && OptionalExtras(body)
  {
    AllKeysOkConcat(CreateLeading + CreateMiddle, CreateTrailing, body, o);
    AllKeysOkConcat(CreateLeading, CreateMiddle, body, o);
    CreateLeadingMeaning(body, o);
    CreateMiddleMeaning(body, o);
    CreateTrailingMeaning(body, o);
  }

  /** A body passes `createPropertySchema` exactly when it is a create body. */
  lemma CreateSchemaMeaning(body: Fields, o: Oracles)
    ensures Validate(CreatePropertySchema, body, o).None? <==> CreatePropertyBody(body, o)
  {
    ValidateMeaning(CreatePropertySchema, body, o);
    CreateKeysMeaning(body, o);
  }

  lemma UpdateLeadingMeaning(body: Fields, o: Oracles)
    ensures AllKeysOk(UpdateLeading, body, o) <==>
      && (Absent(Get(body, "title")) || Filled(Get(body, "title")))
      && (Absent(Get(body, "price")) || Amount(Get(body, "price")))
      && (Absent(Get(body, "amenities")) || TextList(Get(body, "amenities")))
      && (Absent(Get(body, "furnished")) || IsFurnishing(Get(body, "furnished")))
      && (Absent(Get(body, "availableFrom")) || When(Get(body, "availableFrom"), o))
  {
    AllKeysOkFive(Optionally(TitleKey), Optionally(PriceKey), Optionally(AmenitiesKey), Optionally(FurnishedKey), Optionally(AvailableFromKey), body, o);
    TextKeyOk(Optionally(TitleKey), body, o);
    AmountKeyOk(Optionally(PriceKey), body, o);
    ListKeyOk(Optionally(AmenitiesKey), body, o);
    FurnishingKeyOk(Optionally(FurnishedKey), body, o);
    DateKeyOk(Optionally(AvailableFromKey), body, o);
  }

  lemma UpdateTrailingMeaning(body: Fields, o: Oracles)
    ensures AllKeysOk(UpdateTrailing, body, o) <==>
      && (Absent(Get(body, "tags")) || TextList(Get(body, "tags")))
      && (Absent(Get(body, "colorTheme")) || Filled(Get(body, "colorTheme")))
      && (Absent(Get(body, "rating")) || InRating(Get(body, "rating")))
      && (Absent(Get(body, "isVerified")) || Flag(Get(body, "isVerified")))
      && (Absent(Get(body, "listingType")) || IsListingType(Get(body, "listingType")))
  {
    AllKeysOkFive(Optionally(TagsKey), Optionally(ColorThemeKey), Optionally(RatingKey), Optionally(IsVerifiedKey), Optionally(ListingTypeKey), body, o);
    ListKeyOk(Optionally(TagsKey), body, o);
    TextKeyOk(Optionally(ColorThemeKey), body, o);
    RatingKeyOk(Optionally(RatingKey), body, o);
    FlagKeyOk(Optionally(IsVerifiedKey), body, o);
    ListingTypeKeyOk(Optionally(ListingTypeKey), body, o);
  }

  /** A body has at least one key exactly when it is not empty. */
  lemma KeySetNonEmpty(body: Fields)
    ensures |KeySet(body)| >= 1 <==> body != []
  {
    if body != [] {
      assert body[0].0 in KeySet(body);
    }
  }

  /** A body passes `updatePropertySchema` exactly when it is an update body. */
  lemma UpdateSchemaMeaning(body: Fields, o: Oracles)
    ensures Validate(UpdatePropertySchema, body, o).None? <==> UpdatePropertyBody(body, o)
  {
    ValidateMeaning(UpdatePropertySchema, body, o);
    AllKeysOkConcat(UpdateLeading, UpdateTrailing, body, o);
    UpdateLeadingMeaning(body, o);
    UpdateTrailingMeaning(body, o);
    KeySetNonEmpty(body);
  }

  /** The empty update is refused by `.min(1)`, with an error about the root value. */
  lemma UpdateRejectsEmpty(o: Oracles)
    ensures Validate(UpdatePropertySchema, [], o).Some?
    ensures Validate(UpdatePropertySchema, [], o).value.details[0].path == []
  {
    NoKeyErrorOnEmpty(UpdatePropertySchema.keys, o);
    assert KeySet([]) == {};
  }

  lemma UpdateKeyNames()
    ensures UpdateKeys == ["title", "price", "amenities", "furnished", "availableFrom", "tags", "colorTheme", "rating", "isVerified", "listingType"]
  {
    SchemaKeysConcat(UpdateLeading, UpdateTrailing);
    assert SchemaKeys(UpdateLeading) == ["title", "price", "amenities", "furnished", "availableFrom"];
    assert SchemaKeys(UpdateTrailing) == ["tags", "colorTheme", "rating", "isVerified", "listingType"];
  }

  /** None of the keys fixed at creation can be changed: an update body carrying one is refused. */
  lemma UpdateRejectsFixedKey(body: Fields, k: string, o: Oracles)
    requires k in FixedKeys && HasKey(body, k)
    ensures Validate(UpdatePropertySchema, body, o).Some?
  {
    UpdateKeyNames();
    var i :| 0 <= i < |body| && body[i].0 == k;
    assert k !in UpdateKeys;
    assert FirstUnknown(body, SchemaKeys(UpdatePropertySchema.keys)).Some?;
  }

  /** Joi's value gives an absent rating 0 and keeps a present one. */
  lemma CreateRatingDefault(body: Fields, o: Oracles)
    ensures Absent(Get(body, "rating")) ==> Get(WithDefaults(CreatePropertySchema.keys, body, o), "rating") == Num(0.0)
    ensures !Absent(Get(body, "rating")) ==> Get(WithDefaults(CreatePropertySchema.keys, body, o), "rating") == Get(body, "rating")
  {
    var keys, v := CreatePropertySchema.keys, Get(body, "rating");
    assert DefaultOf(keys, "rating") == Num(0.0) by { DefaultOfFirst(keys, 14); }
    assert RuleOf(keys, "rating") == Some(RatingNumber) by { RuleOfFirst(keys, 14); }
    WithDefaultsGet(keys, body, "rating", o);
  }

  /** Joi's value gives an absent verification flag false and turns a boolean word into the boolean. */
  lemma CreateFlagDefault(body: Fields, o: Oracles)
    ensures Absent(Get(body, "isVerified")) ==> Get(WithDefaults(CreatePropertySchema.keys, body, o), "isVerified") == Bool(false)
    ensures var v := Get(body, "isVerified");
      v.Str? && BooleanText(v.s) ==> Get(WithDefaults(CreatePropertySchema.keys, body, o), "isVerified") == Bool(Lower(v.s) == "true")
  {
    var keys, v := CreatePropertySchema.keys, Get(body, "isVerified");
    assert DefaultOf(keys, "isVerified") == Bool(false) by { DefaultOfFirst(keys, 15); }
    assert RuleOf(keys, "isVerified") == Some(JBoolean) by { RuleOfFirst(keys, 15); }
    WithDefaultsGet(keys, body, "isVerified", o);
  }

  /** Joi's value gives absent amenities and tags the empty list. */
  lemma CreateListDefaults(body: Fields, o: Oracles)
    ensures Absent(Get(body, "amenities")) ==> Get(WithDefaults(CreatePropertySchema.keys, body, o), "amenities") == Arr([])
    ensures Absent(Get(body, "tags")) ==> Get(WithDefaults(CreatePropertySchema.keys, body, o), "tags") == Arr([])
  {
    var keys := CreatePropertySchema.keys;
    assert DefaultOf(keys, "amenities") == Arr([]) by { DefaultOfFirst(keys, 8); }
    assert DefaultOf(keys, "tags") == Arr([]) by { DefaultOfFirst(keys, 12); }
    WithDefaultsGet(keys, body, "amenities", o);
    WithDefaultsGet(keys, body, "tags", o);
  }

  /** Joi's value trims a present title and colour theme. */
  lemma CreateTextTrimmed(body: Fields, o: Oracles)
    ensures var v := Get(body, "title");
      v.Str? ==> Get(WithDefaults(CreatePropertySchema.keys, body, o), "title") == Str(Trim(v.s))
    ensures var v := Get(body, "colorTheme");
      v.Str? ==> Get(WithDefaults(CreatePropertySchema.keys, body, o), "colorTheme") == Str(Trim(v.s))
  {
    var keys, title, theme := CreatePropertySchema.keys, Get(body, "title"), Get(body, "colorTheme");
    assert RuleOf(keys, "title") == Some(TrimmedString) by { RuleOfFirst(keys, 0); }
    assert RuleOf(keys, "colorTheme") == Some(TrimmedString) by { RuleOfFirst(keys, 13); }
    WithDefaultsGet(keys, body, "title", o);
    WithDefaultsGet(keys, body, "colorTheme", o);
  }
}

/**
 * The Property collection of src/v1/models/property.model.ts: its four
 * enumerations, the shape of a stored property, the schema's constraints as
 * a validity predicate, and what `PropertyModel.create(doc)` stores (casting,
 * setters, defaults and validation) or refuses.
 */
module PropertyModel {
  import opened Wrappers
  import opened Text
  import opened Json

  datatype PropertyType = Apartment | Bungalow | Villa
  datatype Furnishing = Furnished | Unfurnished | Semi
  datatype ListedBy = Builder | Owner | Agent
  datatype ListingType = Sale | Rent

  /** `Object.values(...)` of each enumeration, in declaration order. */
  const PropertyTypeValues: seq<string> := ["Apartment", "Bungalow", "Villa"]
  const FurnishingValues: seq<string> := ["Furnished", "Unfurnished", "Semi"]
  const ListedByValues: seq<string> := ["Builder", "Owner", "Agent"]
  const ListingTypeValues: seq<string> := ["Sale", "Rent"]

  function PropertyTypeName(t: PropertyType): string
  {
    match t
    case Apartment => "Apartment"
    case Bungalow => "Bungalow"
    case Villa => "Villa"
  }

  function FurnishingName(f: Furnishing): string
  {
    match f
    case Furnished => "Furnished"
    case Unfurnished => "Unfurnished"
    case Semi => "Semi"
  }

  function ListedByName(l: ListedBy): string
  {
    match l
    case Builder => "Builder"
    case Owner => "Owner"
    case Agent => "Agent"
  }

  function ListingTypeName(l: ListingType): string
  {
    match l
    case Sale => "Sale"
    case Rent => "Rent"
  }

  /** The enum validator: a string is accepted exactly when it is one of the values. */
  function ParsePropertyType(s: string): (r: Option<PropertyType>)
    ensures r.Some? <==> s in PropertyTypeValues
    ensures r.Some? ==> PropertyTypeName(r.value) == s
  {
    if s == "Apartment" then Some(Apartment)
    else if s == "Bungalow" then Some(Bungalow)
    else if s == "Villa" then Some(Villa)
    else None
  }

  function ParseFurnishing(s: string): (r: Option<Furnishing>)
    ensures r.Some? <==> s in FurnishingValues
    ensures r.Some? ==> FurnishingName(r.value) == s
  {
    if s == "Furnished" then Some(Furnished)
    else if s == "Unfurnished" then Some(Unfurnished)
    else if s == "Semi" then Some(Semi)
    else None
  }

  function ParseListedBy(s: string): (r: Option<ListedBy>)
    ensures r.Some? <==> s in ListedByValues
    ensures r.Some? ==> ListedByName(r.value) == s
  {
    if s == "Builder" then Some(Builder)
    else if s == "Owner" then Some(Owner)
    else if s == "Agent" then Some(Agent)
    else None
  }

  function ParseListingType(s: string): (r: Option<ListingType>)
    ensures r.Some? <==> s in ListingTypeValues
    ensures r.Some? ==> ListingTypeName(r.value) == s
  {
    if s == "Sale" then Some(Sale)
    else if s == "Rent" then Some(Rent)
    else None
  }

  /** Every member's name is an accepted value and parses back to that member. */
  lemma EnumNamesRoundTrip(t: PropertyType, f: Furnishing, b: ListedBy, l: ListingType)
    ensures ParsePropertyType(PropertyTypeName(t)) == Some(t)
    ensures ParseFurnishing(FurnishingName(f)) == Some(f)
    ensures ParseListedBy(ListedByName(b)) == Some(b)
    ensures ParseListingType(ListingTypeName(l)) == Some(l)
  {
  }

  /**
   * A stored property. `kind` is the schema's `type` path; dates are
   * milliseconds. The paths that are not required are slots: a document can
   * leave them unset or store `null` in them.
   */
  datatype Property = Property(
    id: string,
    title: string,
    kind: PropertyType,
    price: real,
    state: string,
    city: string,
    areaSqFt: real,
    bedrooms: real,
    bathrooms: real,
    amenities: Slot<seq<string>>,
    furnished: Furnishing,
    availableFrom: int,
    listedBy: ListedBy,
    tags: Slot<seq<string>>,
    colorTheme: Slot<string>,
    rating: Slot<real>,
    isVerified: Slot<bool>,
    listingType: ListingType,
    createdBy: string)
  {
    /** `PropertySchema`'s constraints on a stored document; `null` skips a path's validators. */
    predicate Valid()
    {
      && id != ""
      && title != "" && Trimmed(title)
      && state != "" && Trimmed(state)
      && city != "" && Trimmed(city)
      && price >= 0.0 && areaSqFt >= 0.0 && bedrooms >= 0.0 && bathrooms >= 0.0
      && (amenities.Held? ==> AllTrimmed(amenities.value))
      && (tags.Held? ==> AllTrimmed(tags.value))
      && (colorTheme.Held? ==> Trimmed(colorTheme.value))
      && (rating.Held? ==> 0.0 <= rating.value <= 5.0)
    }
  }

  predicate AllTrimmed(items: seq<string>)
  {
    forall i :: 0 <= i < |items| ==> Trimmed(items[i])
  }

  /**
   * A `String` path that is not required: `undefined` leaves it unset,
   * `null` is stored as `null`, and a string is stored, trimmed when the
   * path declares the `trim` setter. `None` is the cast error of any other value.
   */
  function CastString(v: Value, trim: bool): (r: Option<Slot<string>>)
    ensures v == Undefined <==> r == Some(Unset)
    ensures v == Null <==> r == Some(Nulled)
    ensures v.Str? <==> r.Some? && r.value.Held?
    ensures v.Str? ==> r.value.value == if trim then Trim(v.s) else v.s
    ensures v.Str? && trim ==> Trimmed(r.value.value)
  {
    match v
    case Undefined => Some(Unset)
    case Null => Some(Nulled)
    case Str(s) =>
      if trim then TrimIsTrimmed(s); Some(Held(Trim(s))) else Some(Held(s))
    case _ => None
  }

  /** A required `String` path: the cast value must be non-empty. */
  function RequiredString(v: Value, trim: bool): (r: Option<string>)
    ensures r.Some? ==> r.value != "" && v.Str?
    ensures r.Some? && trim ==> Trimmed(r.value) && r.value == Trim(v.s)
    ensures r.Some? && !trim ==> r.value == v.s
  {
    var c := CastString(v, trim);
    if c.Some? && c.value.Held? && c.value.value != "" then Some(c.value.value) else None
  }

  /** A required `Number` path with `min: 0`. */
  function NonNegative(v: Value): (r: Option<real>)
    ensures r.Some? ==> v == Num(r.value) && r.value >= 0.0
  {
    if v.Num? && v.n >= 0.0 then Some(v.n) else None
  }

  /** A required `Date` path; strings are parsed by `parseDate`, numbers are timestamps. */
  function CastDate(v: Value, parseDate: string -> Option<int>): Option<int>
  {
    match v
    case Date(ms) => Some(ms)
    case Num(n) => Some(Truncate(n))
    case Str(s) => parseDate(s)
    case _ => None
  }

  /**
   * `{ type: Boolean, default: d }`: `undefined` takes the default, `null` is
   * stored, and Mongoose's castable true and false values become booleans.
   */
  function CastBoolean(v: Value, d: bool): (r: Option<Slot<bool>>)
    ensures v == Undefined ==> r == Some(Held(d))
    ensures v == Null ==> r == Some(Nulled)
    ensures v.Bool? ==> r == Some(Held(v.b))
    ensures r.Some? ==> r.value != Unset
  {
    match v
    case Undefined => Some(Held(d))
    case Null => Some(Nulled)
    case Bool(b) => Some(Held(b))
    case Num(n) => if n == 1.0 then Some(Held(true)) else if n == 0.0 then Some(Held(false)) else None
    case Str(s) =>
      if s in ["true", "1", "yes"] then Some(Held(true))
      else if s in ["false", "0", "no"] then Some(Held(false))
      else None
    case _ => None
  }

  function TrimAll(items: seq<string>): (r: seq<string>)
    ensures |r| == |items|
    ensures forall i :: 0 <= i < |r| ==> Trimmed(r[i]) && r[i] == Trim(items[i])
  {
    if items == [] then []
    else
      TrimIsTrimmed(items[0]);
      [Trim(items[0])] + TrimAll(items[1..])
  }

  predicate AllStrings(items: seq<Value>)
  {
    forall i :: 0 <= i < |items| ==> items[i].Str?
  }

  function Strings(items: seq<Value>): (r: seq<string>)
    requires AllStrings(items)
    ensures |r| == |items|
    ensures forall i :: 0 <= i < |r| ==> items[i] == Str(r[i])
  {
    if items == [] then [] else [items[0].s] + Strings(items[1..])
  }

  /**
   * `[{ type: String, trim: true }]`: `undefined` takes the default `[]`,
   * `null` is stored, and an array of strings is stored with each item trimmed.
   */
  function CastStringArray(v: Value): (r: Option<Slot<seq<string>>>)
    ensures r.Some? && r.value.Held? ==> AllTrimmed(r.value.value)
    ensures v == Undefined ==> r == Some(Held([]))
    ensures v == Null ==> r == Some(Nulled)
    ensures v.Arr? && AllStrings(v.items) ==> r == Some(Held(TrimAll(Strings(v.items))))
    ensures r.Some? ==> r.value != Unset
  {
    match v
    case Undefined => Some(Held([]))
    case Null => Some(Nulled)
    case Arr(items) => if AllStrings(items) then Some(Held(TrimAll(Strings(items)))) else None
    case _ => None
  }

  /**
   * `rating: { default: 0, min: 0, max: 5 }`: `undefined` takes the default,
   * `null` is stored without the range check, and a number must lie in [0, 5].
   */
  function CastRating(v: Value): (r: Option<Slot<real>>)
    ensures r.Some? && r.value.Held? ==> 0.0 <= r.value.value <= 5.0
    ensures v == Undefined ==> r == Some(Held(0.0))
    ensures v == Null ==> r == Some(Nulled)
    ensures v.Num? ==> (r.Some? <==> 0.0 <= v.n <= 5.0) && (r.Some? ==> r.value == Held(v.n))
    ensures r.Some? ==> r.value != Unset
  {
    match v
    case Undefined => Some(Held(0.0))
    case Null => Some(Nulled)
    case Num(n) => if 0.0 <= n <= 5.0 then Some(Held(n)) else None
    case _ => None
  }

  function CastEnum<T>(v: Value, parse: string -> Option<T>): Option<T>
  {
    if v.Str? then parse(v.s) else None
  }

  /**
   * How a created property relates to the document it was created from:
   * `createdBy` and `_id` as given, the trimmed strings, the numbers and the
   * enumeration values unchanged, the defaults where a key is absent, and
   * `null` kept where the document has `null` on a path that is not required.
   */
  predicate Reflects(doc: Fields, p: Property)
  {
    && Get(doc, "createdBy") == Oid(p.createdBy)
    && Get(doc, "_id") == Str(p.id)
    && Get(doc, "title").Str? && p.title == Trim(Get(doc, "title").s)
    && Get(doc, "state").Str? && p.state == Trim(Get(doc, "state").s)
    && Get(doc, "city").Str? && p.city == Trim(Get(doc, "city").s)
    && Get(doc, "price") == Num(p.price)
    && Get(doc, "areaSqFt") == Num(p.areaSqFt)
    && Get(doc, "bedrooms") == Num(p.bedrooms)
    && Get(doc, "bathrooms") == Num(p.bathrooms)
    && Get(doc, "type") == Str(PropertyTypeName(p.kind))
    && Get(doc, "furnished") == Str(FurnishingName(p.furnished))
    && Get(doc, "listedBy") == Str(ListedByName(p.listedBy))
    && Get(doc, "listingType") == Str(ListingTypeName(p.listingType))
    && Get(doc, "availableFrom") != Undefined
    && StoresNullish(Get(doc, "amenities"), p.amenities, Held([]))
    && StoresNullish(Get(doc, "tags"), p.tags, Held([]))
    && StoresNullish(Get(doc, "colorTheme"), p.colorTheme, Unset)
    && StoresNullish(Get(doc, "rating"), p.rating, Held(0.0))
    && StoresNullish(Get(doc, "isVerified"), p.isVerified, Held(false))
  }

  /** An `undefined` value leaves a path at its default (unset when it has none); `null` is stored as `null`. */
  predicate StoresNullish<T(==)>(v: Value, slot: Slot<T>, default: Slot<T>)
  {
    && (v == Undefined ==> slot == default)
    && (v == Null ==> slot == Nulled)
  }

  /**
   * `PropertyModel.create(doc)` without the store: cast every schema path of
   * `doc`, apply the `trim` setters and the defaults, run the validators.
   * Keys the schema does not declare are dropped (strict mode). `None` is the
   * validation or cast error that makes `create` throw.
   */
  function FromDocument(doc: Fields, parseDate: string -> Option<int>): (r: Option<Property>)
    ensures r.Some? ==> r.value.Valid()
    ensures r.Some? ==> Reflects(doc, r.value)
  {
    var id := RequiredString(Get(doc, "_id"), false);
    var title := RequiredString(Get(doc, "title"), true);
    var kind := CastEnum(Get(doc, "type"), ParsePropertyType);
    var price := NonNegative(Get(doc, "price"));
    var state := RequiredString(Get(doc, "state"), true);
    var city := RequiredString(Get(doc, "city"), true);
    var area := NonNegative(Get(doc, "areaSqFt"));
    var bedrooms := NonNegative(Get(doc, "bedrooms"));
    var bathrooms := NonNegative(Get(doc, "bathrooms"));
    var amenities := CastStringArray(Get(doc, "amenities"));
    var furnished := CastEnum(Get(doc, "furnished"), ParseFurnishing);
    var availableFrom := CastDate(Get(doc, "availableFrom"), parseDate);
    var listedBy := CastEnum(Get(doc, "listedBy"), ParseListedBy);
    var tags := CastStringArray(Get(doc, "tags"));
    var colorTheme := CastString(Get(doc, "colorTheme"), true);
    var rating := CastRating(Get(doc, "rating"));
    var verified := CastBoolean(Get(doc, "isVerified"), false);
    var listingType := CastEnum(Get(doc, "listingType"), ParseListingType);
    var createdBy := Get(doc, "createdBy");
    if && id.Some? && title.Some? && kind.Some? && price.Some? && state.Some? && city.Some?
       && area.Some? && bedrooms.Some? && bathrooms.Some? && amenities.Some? && furnished.Some?
       && availableFrom.Some? && listedBy.Some? && tags.Some? && colorTheme.Some?
       && rating.Some? && verified.Some? && listingType.Some? && createdBy.Oid?
    then
      Some(Property(
        id.value, title.value, kind.value, price.value, state.value, city.value,
        area.value, bedrooms.value, bathrooms.value, amenities.value, furnished.value,
        availableFrom.value, listedBy.value, tags.value, colorTheme.value,
        rating.value, verified.value, listingType.value, createdBy.hex))
    else None
  }

  function Strs(items: seq<string>): (r: seq<Value>)
    ensures |r| == |items|
  {
    if items == [] then [] else [Str(items[0])] + Strs(items[1..])
  }

  /**
   * The property document as `toJSON` renders it: the schema's paths, unset
   * slots left out, and the `id` virtual that `virtuals: true` adds
   * (timestamps and the version key aside).
   */
  function PropertyJson(p: Property): Value
  {
    var texts := (xs: seq<string>) => Arr(Strs(xs));
    Obj([
      ("_id", Str(p.id)), ("title", Str(p.title)), ("type", Str(PropertyTypeName(p.kind))),
      ("price", Num(p.price)), ("state", Str(p.state)), ("city", Str(p.city)),
      ("areaSqFt", Num(p.areaSqFt)), ("bedrooms", Num(p.bedrooms)), ("bathrooms", Num(p.bathrooms))]
      + SlotField("amenities", p.amenities, texts)
      + [("furnished", Str(FurnishingName(p.furnished))), ("availableFrom", Date(p.availableFrom)),
         ("listedBy", Str(ListedByName(p.listedBy)))]
      + SlotField("tags", p.tags, texts)
      + SlotField("colorTheme", p.colorTheme, (c: string) => Str(c))
      + SlotField("rating", p.rating, (n: real) => Num(n))
      + SlotField("isVerified", p.isVerified, (b: bool) => Bool(b))
      + [("listingType", Str(ListingTypeName(p.listingType))), ("createdBy", Oid(p.createdBy)),
         ("id", Str(p.id))])
  }
}

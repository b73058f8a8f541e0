/**
 * The Recommendation collection of src/v1/models/recommendation.model.ts and
 * the ObjectId objects Mongoose hands out for references.
 */
module RecommendationModel {
  import opened Wrappers
  import opened Text
  import opened Json

  /**
   * A stored recommendation edge. `from`, `to` and `propertyId` are the hex
   * forms of the referenced ids; `recommendatedAt` keeps the schema's
   * spelling. The message is a slot: unset, `null`, or text.
   */
  datatype Recommendation = Recommendation(
    id: string, from: string, to: string, propertyId: string,
    recommendatedAt: int, message: Slot<string>)
  {
    /** `RecommendationSchema`'s constraint: a held message is trimmed and at most 500 UTF-16 units long. */
    predicate Valid()
    {
      message.Held? ==> Trimmed(message.value) && Utf16Length(message.value) <= 500
    }
  }

  /**
   * `new RecommendationModel({ from, to, message, propertyId })` followed by
   * `save()`: `recommendatedAt` defaults to `now`; an absent message stays
   * unset and `null` is stored as `null` (`maxlength` skips it); a string
   * is trimmed and checked against `maxlength: 500`. `None` is the cast or
   * validation error that makes `save` throw.
   */
  function NewRecommendation(id: string, from: string, to: string, propertyId: string, message: Value, now: int): (r: Option<Recommendation>)
    ensures r.Some? ==> r.value.Valid()
    ensures r.Some? ==> r.value.id == id && r.value.from == from && r.value.to == to && r.value.propertyId == propertyId
    ensures r.Some? ==> r.value.recommendatedAt == now
    ensures message == Undefined ==> r.Some? && r.value.message == Unset
    ensures message == Null ==> r.Some? && r.value.message == Nulled
    ensures message.Str? ==> (r.Some? <==> Utf16Length(Trim(message.s)) <= 500)
    ensures r.Some? && message.Str? ==> r.value.message == Held(Trim(message.s))
  {
    match message
    case Undefined => Some(Recommendation(id, from, to, propertyId, now, Unset))
    case Null => Some(Recommendation(id, from, to, propertyId, now, Nulled))
    case Str(s) =>
      TrimIsTrimmed(s);
      if Utf16Length(Trim(s)) <= 500 then Some(Recommendation(id, from, to, propertyId, now, Held(Trim(s)))) else None
    case _ => None
  }

  /**
   * `maxlength` counts UTF-16 units: a trimmed message of more than 250
   * characters, all outside the Basic Multilingual Plane, is over the limit.
   */
  lemma AstralMessageOverLimit(id: string, from: string, to: string, propertyId: string, s: string, now: int)
    requires Trimmed(s) && 250 < |s|
    requires forall i :: 0 <= i < |s| ==> s[i] as int >= 0x1_0000
    ensures NewRecommendation(id, from, to, propertyId, Str(s), now).None?
  {
    assert Utf16Length(Trim(s)) > 500 by {
      Utf16LengthOfAstral(s);
      TrimOfTrimmed(s);
    }
  }

  /** The (from, to, propertyId) triple the duplicate check looks for. */
  predicate SameTriple(r: Recommendation, from: string, to: string, propertyId: string)
  {
    r.from == from && r.to == to && r.propertyId == propertyId
  }

  /** No two edges share a triple. */
  predicate DistinctTriples(rs: seq<Recommendation>)
  {
    forall i, j :: 0 <= i < j < |rs| ==> !SameTriple(rs[j], rs[i].from, rs[i].to, rs[i].propertyId)
  }

  /** Every edge satisfies the schema. */
  predicate AllValid(rs: seq<Recommendation>)
  {
    forall i :: 0 <= i < |rs| ==> rs[i].Valid()
  }

  /** The schema declares no unique index: two edges with one triple are a valid collection. */
  lemma SchemaAdmitsDuplicateTriples(r: Recommendation)
    requires r.Valid()
    ensures AllValid([r, r]) && !DistinctTriples([r, r])
  {
    assert SameTriple([r, r][1], [r, r][0].from, [r, r][0].to, [r, r][0].propertyId);
  }

  /** The document, with each reference either an ObjectId or the populated document. */
  function RecommendationDocument(r: Recommendation, from: Value, to: Value, property: Value): Value
  {
    Obj([("_id", Oid(r.id)), ("from", from), ("to", to), ("propertyId", property),
         ("recommendatedAt", Date(r.recommendatedAt))]
        + SlotField("message", r.message, (m: string) => Str(m)))
  }

  /**
   * A `Types.ObjectId` object. Every document Mongoose loads carries its own
   * ObjectId objects, so `===` between ids of two loaded documents compares
   * two distinct references, whatever their hex values.
   */
  class ObjectId {
    const hex: string

    constructor (hex: string)
      ensures this.hex == hex
    {
      this.hex := hex;
    }

    /** `a.equals(b)`: equality of the hex values. */
    predicate EqualsId(other: ObjectId)
    {
      hex == other.hex
    }
  }

  /**
   * `a === b` between the ids `a` and `b` of two separately loaded
   * documents: each load builds its own ObjectId object, so the comparison
   * is false even when the hex values are equal.
   */
  method LoadedIdsStrictlyEqual(a: string, b: string) returns (same: bool)
    ensures !same
  {
    var x := new ObjectId(a);
    var y := new ObjectId(b);
    same := x == y;
  }
}

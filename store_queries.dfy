/**
 * What the controllers ask of the collections: first-match queries
 * (`findById`, `findOne`), the `$addToSet` and `$pull` updates of a user's
 * favourites, the received-recommendations query, `populate`, the Redis key
 * of a user's received recommendations, and the invariants the collections
 * keep between requests.
 */
module StoreQueries {
  import opened Wrappers
  import opened Text
  import opened Json
  import opened UserModel
  import opened PropertyModel
  import opened RecommendationModel

  /** An awaited library call: the value it resolves to, or the error it throws. */
  datatype Attempt<T> = Done(value: T) | Threw(error: Value)

  /** `error.message` of a caught error. */
  function MessageOf(error: Value): (m: Value)
    ensures error.Err? ==> m == Str(error.reason)
    ensures !error.Err? ==> m == Undefined
  {
    if error.Err? then Str(error.reason) else Undefined
  }

  // ---------------------------------------------------------------- queries

  /** The position of the first element that matches, as `findOne` picks the first document. */
  function FirstMatch<T>(s: seq<T>, matches: T -> bool): (r: Option<nat>)
    ensures r.Some? ==> r.value < |s| && matches(s[r.value])
    ensures r.Some? ==> forall j :: 0 <= j < r.value ==> !matches(s[j])
    ensures r.None? <==> forall j :: 0 <= j < |s| ==> !matches(s[j])
  {
    if s == [] then None
    else if matches(s[0]) then Some(0)
    else
      var r := FirstMatch(s[1..], matches);
      if r.None? then None
      else
        assert s[1..][r.value] == s[r.value + 1];
        Some(r.value + 1)
  }

  /** `UserModel.findById(id)`. */
  function UserById(users: seq<User>, id: string): (r: Option<nat>)
    ensures r.Some? ==> r.value < |users| && users[r.value].id == id
    ensures r.None? <==> forall j :: 0 <= j < |users| ==> users[j].id != id
  {
    FirstMatch(users, (u: User) => u.id == id)
  }

  /** Some stored user has the `_id` `id`: `UserModel.findById(id)` is not `null`. */
  predicate UserExists(users: seq<User>, id: string)
  {
    exists j :: 0 <= j < |users| && users[j].id == id
  }

  /** The user whose stored email is exactly `email`, as the unique index on `email` compares them. */
  function UserByEmail(users: seq<User>, email: string): (r: Option<nat>)
    ensures r.Some? ==> r.value < |users| && users[r.value].email == email
    ensures r.Some? ==> forall j :: 0 <= j < r.value ==> users[j].email != email
    ensures r.None? <==> forall j :: 0 <= j < |users| ==> users[j].email != email
  {
    FirstMatch(users, (u: User) => u.email == email)
  }

  /**
   * Whether the filter of `findOne({ email: filter })` matches a stored
   * email. Mongoose casts a string filter through the path's `lowercase` and
   * `trim` setters, and an array of strings becomes `$in` over its items,
   * each cast the same way. Any other filter (an operator object such as
   * `{ $ne: null }`, `null`, `undefined`, a number) is decided by
   * `otherFilter`: how Mongoose casts it and MongoDB reads it is not part of
   * this model.
   */
  predicate EmailFilterMatches(filter: Value, email: string, otherFilter: (Value, string) -> bool)
  {
    match filter
    case Str(s) => email == NormalizeEmail(s)
    case Arr(items) =>
      if AllStrings(items) then exists i :: 0 <= i < |items| && email == NormalizeEmail(items[i].s)
      else otherFilter(filter, email)
    case _ => otherFilter(filter, email)
  }

  /** `UserModel.findOne({ email: filter })`: the first user the cast filter matches. */
  function UserWithEmail(users: seq<User>, filter: Value, otherFilter: (Value, string) -> bool): (r: Option<nat>)
    ensures r.Some? ==> r.value < |users| && EmailFilterMatches(filter, users[r.value].email, otherFilter)
    ensures r.Some? ==> forall j :: 0 <= j < r.value ==> !EmailFilterMatches(filter, users[j].email, otherFilter)
    ensures r.None? <==> forall j :: 0 <= j < |users| ==> !EmailFilterMatches(filter, users[j].email, otherFilter)
  {
    FirstMatch(users, (u: User) => EmailFilterMatches(filter, u.email, otherFilter))
  }

  /** A string filter finds the user whose stored email is the filter after the setters. */
  lemma StringFilterFindsStoredEmail(users: seq<User>, s: string, otherFilter: (Value, string) -> bool)
    ensures UserWithEmail(users, Str(s), otherFilter) == UserByEmail(users, NormalizeEmail(s))
  {
    var e := NormalizeEmail(s);
    assert forall j :: 0 <= j < |users| ==> (EmailFilterMatches(Str(s), users[j].email, otherFilter) <==> users[j].email == e);
  }

  /** `PropertyModel.findById(id)`. */
  function PropertyById(properties: seq<Property>, id: string): (r: Option<nat>)
    ensures r.Some? ==> r.value < |properties| && properties[r.value].id == id
    ensures r.None? <==> forall j :: 0 <= j < |properties| ==> properties[j].id != id
  {
    FirstMatch(properties, (p: Property) => p.id == id)
  }

  /** `RecommendationModel.findOne({ from, to, propertyId })` finds a document. */
  predicate HasTriple(recs: seq<Recommendation>, from: string, to: string, propertyId: string)
  {
    exists i :: 0 <= i < |recs| && SameTriple(recs[i], from, to, propertyId)
  }

  /** `RecommendationModel.find({ to })`, in the collection's order. */
  function Received(recs: seq<Recommendation>, to: string): (r: seq<Recommendation>)
    ensures |r| <= |recs|
    ensures forall i :: 0 <= i < |r| ==> r[i].to == to && r[i] in recs
  {
    if recs == [] then []
    else if recs[0].to == to then [recs[0]] + Received(recs[1..], to)
    else Received(recs[1..], to)
  }

  /** Every edge addressed to `to` is found. */
  lemma {:induction false} ReceivedComplete(recs: seq<Recommendation>, to: string, i: nat)
    requires i < |recs| && recs[i].to == to
    ensures recs[i] in Received(recs, to)
  {
    if i > 0 {
      ReceivedComplete(recs[1..], to, i - 1);
    }
  }

  /** A new edge shows up, last, only in its recipient's list; every other list is unchanged. */
  lemma {:induction false} ReceivedAppend(recs: seq<Recommendation>, e: Recommendation, to: string)
    ensures Received(recs + [e], to) == Received(recs, to) + (if e.to == to then [e] else [])
  {
    if recs != [] {
      assert (recs + [e])[1..] == recs[1..] + [e];
      ReceivedAppend(recs[1..], e, to);
    }
  }

  // ------------------------------------------------------------ favourites

  /** No id occurs twice. */
  predicate NoDuplicates(s: seq<string>)
  {
    forall i, j :: 0 <= i < j < |s| ==> s[i] != s[j]
  }

  /** `$addToSet: { favorites: id }`. */
  function AddToSet(favorites: seq<string>, id: string): seq<string>
  {
    if id in favorites then favorites else favorites + [id]
  }

  /** `$pull: { favorites: id }`: every occurrence removed, the rest kept in order. */
  function Pull(favorites: seq<string>, id: string): (r: seq<string>)
    ensures |r| <= |favorites|
  {
    if favorites == [] then []
    else if favorites[0] == id then Pull(favorites[1..], id)
    else [favorites[0]] + Pull(favorites[1..], id)
  }

  lemma {:induction false} NoDuplicatesCount(s: seq<string>, x: string)
    requires NoDuplicates(s)
    ensures multiset(s)[x] == if x in s then 1 else 0
  {
    if s != [] {
      assert s == [s[0]] + s[1..];
      NoDuplicatesCount(s[1..], x);
      if s[0] == x {
        assert x !in s[1..] by {
          forall j | 0 <= j < |s[1..]| ensures s[1..][j] != x {
            assert s[0] != s[j + 1];
          }
        }
      }
    }
  }

  /**
   * After `$addToSet` the id is in the list exactly once, what was there keeps
   * its place, and an id already present changes nothing.
   */
  lemma AddToSetOnce(favorites: seq<string>, id: string)
    requires NoDuplicates(favorites)
    ensures NoDuplicates(AddToSet(favorites, id))
    ensures multiset(AddToSet(favorites, id))[id] == 1
    ensures AddToSet(favorites, id)[..|favorites|] == favorites
    ensures id in favorites ==> AddToSet(favorites, id) == favorites
    ensures id !in favorites ==> AddToSet(favorites, id) == favorites + [id]
  {
    NoDuplicatesCount(AddToSet(favorites, id), id);
  }

  /** `$pull` keeps exactly the other ids, each as often as before. */
  lemma {:induction false} PullMeaning(favorites: seq<string>, id: string, y: string)
    ensures y in Pull(favorites, id) <==> y in favorites && y != id
    ensures multiset(Pull(favorites, id))[y] == if y == id then 0 else multiset(favorites)[y]
  {
    if favorites != [] {
      assert favorites == [favorites[0]] + favorites[1..];
      PullMeaning(favorites[1..], id, y);
    }
  }

  /** `$pull` of an id that is not there leaves the list as it is. */
  lemma {:induction false} PullAbsent(favorites: seq<string>, id: string)
    requires id !in favorites
    ensures Pull(favorites, id) == favorites
  {
    if favorites != [] {
      assert favorites == [favorites[0]] + favorites[1..];
      PullAbsent(favorites[1..], id);
    }
  }

  /** `$pull` keeps the order: it filters each part of the list separately. */
  lemma {:induction false} PullConcat(a: seq<string>, b: seq<string>, id: string)
    ensures Pull(a + b, id) == Pull(a, id) + Pull(b, id)
  {
    if a == [] {
      assert a + b == b;
    } else {
      assert (a + b)[1..] == a[1..] + b;
      PullConcat(a[1..], b, id);
    }
  }

  lemma {:induction false} PullNoDuplicates(favorites: seq<string>, id: string)
    requires NoDuplicates(favorites)
    ensures NoDuplicates(Pull(favorites, id))
  {
    if favorites != [] {
      PullNoDuplicates(favorites[1..], id);
      if favorites[0] != id {
        var r, rest := Pull(favorites, id), Pull(favorites[1..], id);
        assert favorites[0] !in rest by {
          PullMeaning(favorites[1..], id, favorites[0]);
          forall j | 0 <= j < |favorites[1..]| ensures favorites[1..][j] != favorites[0] {
            assert favorites[0] != favorites[j + 1];
          }
        }
        assert r == [favorites[0]] + rest;
        forall i, j | 0 <= i < j < |r| ensures r[i] != r[j] {
          if i == 0 {
            assert r[j] == rest[j - 1] && rest[j - 1] in rest;
          } else {
            assert r[i] == rest[i - 1] && r[j] == rest[j - 1];
          }
        }
      }
    }
  }

  // -------------------------------------------------------------- populate

  /** `populate('favorites')`: each id becomes its property's document; ids with no property are dropped. */
  function PopulateProperties(properties: seq<Property>, ids: seq<string>): (r: seq<Value>)
    ensures |r| <= |ids|
    ensures (forall i :: 0 <= i < |ids| ==> PropertyById(properties, ids[i]).Some?) ==> |r| == |ids|
  {
    if ids == [] then []
    else
      var found := PropertyById(properties, ids[0]);
      var rest := PopulateProperties(properties, ids[1..]);
      if found.Some? then [PropertyJson(properties[found.value])] + rest else rest
  }

  /** `populate` of a single user reference: the user's JSON, or `null` when it is gone. */
  function PopulateUser(users: seq<User>, id: string): (v: Value)
    ensures UserById(users, id).None? <==> v == Null
  {
    var i := UserById(users, id);
    if i.Some? then UserJson(users[i.value]) else Null
  }

  /** `populate` of a single property reference. */
  function PopulateProperty(properties: seq<Property>, id: string): (v: Value)
    ensures PropertyById(properties, id).None? <==> v == Null
  {
    var i := PropertyById(properties, id);
    if i.Some? then PropertyJson(properties[i.value]) else Null
  }

  /** The received list as sent: `propertyId` and `from` populated, `to` left as an ObjectId. */
  function ReceivedDocuments(users: seq<User>, properties: seq<Property>, recs: seq<Recommendation>): (r: seq<Value>)
    ensures |r| == |recs|
    ensures forall i :: 0 <= i < |recs| ==>
      r[i] == RecommendationDocument(recs[i], PopulateUser(users, recs[i].from), Oid(recs[i].to),
                                     PopulateProperty(properties, recs[i].propertyId))
  {
    if recs == [] then []
    else
      [RecommendationDocument(recs[0], PopulateUser(users, recs[0].from), Oid(recs[0].to),
                              PopulateProperty(properties, recs[0].propertyId))]
      + ReceivedDocuments(users, properties, recs[1..])
  }

  // ------------------------------------------------------------------ cache

  const CachePrefix: string := "receivedRecommendations:"

  /** `` `receivedRecommendations:${id.toString()}` ``. */
  function CacheKey(userId: string): string
  {
    CachePrefix + userId
  }

  /** Distinct users have distinct cache keys, so deleting one user's key touches no other user's. */
  lemma CacheKeyInjective(a: string, b: string)
    requires CacheKey(a) == CacheKey(b)
    ensures a == b
  {
    assert a == CacheKey(a)[|CachePrefix|..];
    assert b == CacheKey(b)[|CachePrefix|..];
  }

  // ------------------------------------------------------------- invariants

  /**
   * The users collection: ids are unique, emails are unique (the schema's
   * `unique: true` index), every document satisfies `UserSchema`, and no
   * favourite is listed twice.
   */
  predicate UsersValid(users: seq<User>, emailPattern: string -> bool)
  {
    && (forall i, j :: 0 <= i < j < |users| ==> users[i].id != users[j].id && users[i].email != users[j].email)
    && (forall i :: 0 <= i < |users| ==> ValidUser(users[i], emailPattern) && NoDuplicates(users[i].favorites))
  }

  /** The properties collection: unique `_id`s, every document satisfies `PropertySchema`. */
  predicate PropertiesValid(properties: seq<Property>)
  {
    && (forall i, j :: 0 <= i < j < |properties| ==> properties[i].id != properties[j].id)
    && (forall i :: 0 <= i < |properties| ==> properties[i].Valid())
  }

  /** The recommendations collection: every document is valid and no triple is stored twice. */
  predicate RecommendationsValid(recs: seq<Recommendation>)
  {
    AllValid(recs) && DistinctTriples(recs)
  }

  /** Inserting a valid user whose id and email are both new keeps the users collection valid. */
  lemma InsertUserKeepsValid(users: seq<User>, u: User, emailPattern: string -> bool)
    requires UsersValid(users, emailPattern)
    requires ValidUser(u, emailPattern) && u.favorites == []
    requires UserById(users, u.id).None? && UserByEmail(users, u.email).None?
    ensures UsersValid(users + [u], emailPattern)
  {
    var s := users + [u];
    forall i, j | 0 <= i < j < |s| ensures s[i].id != s[j].id && s[i].email != s[j].email {
      if j == |users| {
        assert s[i] == users[i];
      }
    }
  }

  /** Replacing one user's favourites by a list without repeats keeps the users collection valid. */
  lemma SetFavoritesKeepsValid(users: seq<User>, i: nat, favorites: seq<string>, emailPattern: string -> bool)
    requires UsersValid(users, emailPattern) && i < |users| && NoDuplicates(favorites)
    ensures UsersValid(users[i := users[i].(favorites := favorites)], emailPattern)
  {
  }

  /** Inserting a valid property with a new `_id` keeps the properties collection valid. */
  lemma InsertPropertyKeepsValid(properties: seq<Property>, p: Property)
    requires PropertiesValid(properties) && p.Valid() && PropertyById(properties, p.id).None?
    ensures PropertiesValid(properties + [p])
  {
    var s := properties + [p];
    forall i, j | 0 <= i < j < |s| ensures s[i].id != s[j].id {
      if j == |properties| {
        assert s[i] == properties[i];
      }
    }
  }

  /** Inserting a valid edge whose triple is new keeps the recommendations collection valid. */
  lemma InsertEdgeKeepsValid(recs: seq<Recommendation>, r: Recommendation)
    requires RecommendationsValid(recs) && r.Valid() && !HasTriple(recs, r.from, r.to, r.propertyId)
    ensures RecommendationsValid(recs + [r])
  {
    var s := recs + [r];
    forall i, j | 0 <= i < j < |s| ensures !SameTriple(s[j], s[i].from, s[i].to, s[i].propertyId) {
      if j == |recs| {
        assert s[i] == recs[i];
      }
    }
  }

  /** The stored email of a user finds exactly that user: emails are unique in a valid collection. */
  lemma StoredEmailFindsUser(users: seq<User>, emailPattern: string -> bool, i: nat)
    requires UsersValid(users, emailPattern) && i < |users|
    ensures UserByEmail(users, users[i].email) == Some(i)
  {
    assert forall j :: 0 <= j < |users| && j != i ==> users[j].email != users[i].email by {
      forall j | 0 <= j < |users| && j != i
        ensures users[j].email != users[i].email
      {
        if j < i { assert users[j].email != users[i].email; }
      }
    }
  }

  /**
   * `findOne({ email })` finds a stored user under any spelling the email
   * path's setters turn into the stored email: other capital letters, or
   * white space around it.
   */
  lemma NormalizedEmailFindsUser(users: seq<User>, emailPattern: string -> bool, i: nat, s: string,
                                 otherFilter: (Value, string) -> bool)
    requires UsersValid(users, emailPattern) && i < |users| && NormalizeEmail(s) == users[i].email
    ensures UserWithEmail(users, Str(s), otherFilter) == Some(i)
  {
    StoredEmailFindsUser(users, emailPattern, i);
    StringFilterFindsStoredEmail(users, s, otherFilter);
  }
}

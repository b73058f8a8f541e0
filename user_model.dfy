/**
 * The User collection of src/v1/models/user.model.ts: the stored record,
 * `UserSchema`'s constraints, what `UserModel.create` stores or refuses, and
 * the `toJSON` transform that hides the password hash.
 */
module UserModel {
  import opened Wrappers
  import opened Text
  import opened Json

  /** A stored user; `id` is the hex form of its ObjectId, `favorites` are property ids. */
  datatype User = User(id: string, name: string, email: string, passwordHash: string, favorites: seq<string>)

  /**
   * `UserSchema`'s constraints: a trimmed name of 2 to 50 UTF-16 units, a
   * non-empty, trimmed, lower-case email that matches the schema's pattern
   * (`emailPattern`, the regular expression of the `match` validator), and a
   * password hash of at least 6 units.
   */
  predicate ValidUser(u: User, emailPattern: string -> bool)
  {
    && Trimmed(u.name) && 2 <= Utf16Length(u.name) <= 50
    && u.email != "" && Trimmed(u.email) && IsLower(u.email) && emailPattern(u.email)
    && Utf16Length(u.passwordHash) >= 6
  }

  /** The `lowercase` and `trim` setters of the email path. */
  function NormalizeEmail(email: string): (r: string)
    ensures Trimmed(r) && IsLower(r)
  {
    var lower := Lower(email);
    LowerIdempotent(email);
    TrimIsTrimmed(lower);
    Trim(lower)
  }

  /** Lower-casing before the setters run changes nothing: they lower-case anyway. */
  lemma NormalizeLowered(email: string)
    ensures NormalizeEmail(Lower(email)) == NormalizeEmail(email)
  {
    LowerIdempotent(email);
  }

  /**
   * `UserModel.create({ name, email, passwordHash })` without the unique
   * index: cast and trim the name, normalise the email, validate. `None` is
   * the validation error that makes `create` throw. A new user has no favourites.
   */
  function CreateUser(id: string, name: Value, email: string, passwordHash: string, emailPattern: string -> bool): (r: Option<User>)
    ensures r.Some? ==> ValidUser(r.value, emailPattern)
    ensures r.Some? ==> name.Str? && r.value == User(id, Trim(name.s), NormalizeEmail(email), passwordHash, [])
    ensures (&& name.Str? && 2 <= Utf16Length(Trim(name.s)) <= 50 && NormalizeEmail(email) != ""
             && emailPattern(NormalizeEmail(email)) && Utf16Length(passwordHash) >= 6) ==> r.Some?
  {
    if !name.Str? then None
    else
      var n := Trim(name.s);
      var e := NormalizeEmail(email);
      TrimIsTrimmed(name.s);
      if 2 <= Utf16Length(n) <= 50 && e != "" && emailPattern(e) && Utf16Length(passwordHash) >= 6
      then Some(User(id, n, e, passwordHash, []))
      else None
  }

  function Oids(ids: seq<string>): (r: seq<Value>)
    ensures |r| == |ids|
    ensures forall i :: 0 <= i < |ids| ==> r[i] == Oid(ids[i])
  {
    if ids == [] then [] else [Oid(ids[0])] + Oids(ids[1..])
  }

  /** The stored document, hash included (timestamps aside). */
  function UserDocument(u: User): Fields
  {
    [("_id", Oid(u.id)), ("name", Str(u.name)), ("email", Str(u.email)),
     ("passwordHash", Str(u.passwordHash)), ("favorites", Arr(Oids(u.favorites)))]
  }

  /**
   * The user as `toJSON` renders it: the transform's `delete ret.passwordHash`,
   * and the `id` virtual that `virtuals: true` adds (timestamps and the
   * version key aside).
   */
  function UserJson(u: User): (r: Value)
    ensures r.Obj?
  {
    Obj(Without(UserDocument(u), "passwordHash") + [("id", Str(u.id))])
  }

  /** The serialised user carries no password hash, its id as `id`, and every other field unchanged. */
  lemma UserJsonHidesHash(u: User, k: string)
    ensures Get(UserJson(u).fields, "passwordHash") == Undefined
    ensures Get(UserJson(u).fields, "id") == Str(u.id)
    ensures k != "passwordHash" && k != "id" ==> Get(UserJson(u).fields, k) == Get(UserDocument(u), k)
  {
    var kept := Without(UserDocument(u), "passwordHash");
    GetAppend(kept, "id", Str(u.id), k);
    GetAppend(kept, "id", Str(u.id), "passwordHash");
    GetAppend(kept, "id", Str(u.id), "id");
    GetWithout(UserDocument(u), "passwordHash", k);
  }
}

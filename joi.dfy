/**
 * The part of Joi the validation schemas use: object schemas whose keys carry
 * a string, number, enumeration, boolean, date or string-array rule, a
 * presence (required, optional or defaulted) and overriding messages.
 * `Validate` follows Joi's default `abortEarly` mode: the schema's keys are
 * checked in order, then unknown keys, then the key-count rule, and the first
 * failure is the single detail of the error.
 */
module Joi {
  import opened Wrappers
  import opened Text
  import opened Json

  datatype PathKey = Key(name: string) | Index(i: nat)

  /** One entry of `error.details`. */
  datatype Detail = Detail(message: string, path: seq<PathKey>)

  /** The `error` of `schema.validate(value)`. */
  datatype ValidationError = ValidationError(details: seq<Detail>)

  datatype Rule =
    | JString(trim: bool, min: Option<nat>, max: Option<nat>, email: bool)   // Joi.string()...
    | JNumber(min: Option<nat>, max: Option<nat>)                            // Joi.number()...
    | JValid(allowed: seq<string>)                                           // Joi.string().valid(...)
    | JBoolean                                                               // Joi.boolean()
    | JDate                                                                  // Joi.date()
    | JStringArray                                                           // Joi.array().items(Joi.string().trim())

  datatype Presence = Required | Optional | Default(value: Value)

  datatype KeySchema = KeySchema(key: string, rule: Rule, presence: Presence, messages: map<string, string>)

  /** `Joi.object({...}).min(minKeys)`. */
  datatype ObjectSchema = ObjectSchema(keys: seq<KeySchema>, minKeys: nat)

  /** What Joi decides with code this model does not contain: `string().email()` and date parsing. */
  datatype Oracles = Oracles(isEmail: string -> bool, parseDate: string -> Option<int>)

  function PathText(path: seq<PathKey>): string
  {
    if path == [] then ""
    else
      (match path[0]
       case Key(name) => name
       case Index(i) => "[" + NatToString(i) + "]")
      + PathText(path[1..])
  }

  /** Joi's quoted label; the root value is labelled `"value"`. */
  function Label(path: seq<PathKey>): string
  {
    "\"" + (if path == [] then "value" else PathText(path)) + "\""
  }

  /** The key's own message for `code` when it declares one, Joi's template otherwise. */
  function Message(code: string, template: string, messages: map<string, string>): string
  {
    if code in messages then messages[code] else template
  }

  predicate BooleanText(s: string)
  {
    Lower(s) == "true" || Lower(s) == "false"
  }

  function JoinValues(vs: seq<string>): string
  {
    if vs == [] then "" else if |vs| == 1 then vs[0] else vs[0] + ", " + JoinValues(vs[1..])
  }

  /** A string item of `Joi.array().items(Joi.string().trim())`. */
  function CheckItem(v: Value, path: seq<PathKey>): (d: Option<Detail>)
    ensures d.None? <==> v.Str? && Trim(v.s) != ""
  {
    if !v.Str? then Some(Detail(Label(path) + " must be a string", path))
    else if Trim(v.s) == "" then Some(Detail(Label(path) + " is not allowed to be empty", path))
    else None
  }

  /** The first failing item, from index `from` on. */
  function CheckItems(items: seq<Value>, from: nat, path: seq<PathKey>): (d: Option<Detail>)
    requires from <= |items|
    ensures d.None? <==> forall i :: from <= i < |items| ==> items[i].Str? && Trim(items[i].s) != ""
    decreases |items| - from
  {
    if from == |items| then None
    else
      var d := CheckItem(items[from], path + [Index(from)]);
      if d.Some? then d else CheckItems(items, from + 1, path)
  }

  /** The rule of one key applied to a value that is present. */
  function CheckRule(rule: Rule, v: Value, path: seq<PathKey>, messages: map<string, string>, o: Oracles): Option<Detail>
  {
    var lbl := Label(path);
    match rule
    case JString(trim, min, max, email) =>
      if !v.Str? then Some(Detail(Message("string.base", lbl + " must be a string", messages), path))
      else
        var s := if trim then Trim(v.s) else v.s;
        if s == "" then Some(Detail(Message("string.empty", lbl + " is not allowed to be empty", messages), path))
        else if min.Some? && Utf16Length(s) < min.value then
          Some(Detail(Message("string.min", lbl + " length must be at least " + NatToString(min.value) + " characters long", messages), path))
        else if max.Some? && Utf16Length(s) > max.value then
          Some(Detail(Message("string.max", lbl + " length must be less than or equal to " + NatToString(max.value) + " characters long", messages), path))
        else if email && !o.isEmail(s) then
          Some(Detail(Message("string.email", lbl + " must be a valid email", messages), path))
        else None
    case JNumber(min, max) =>
      if !v.Num? then Some(Detail(Message("number.base", lbl + " must be a number", messages), path))
      else if min.Some? && v.n < min.value as real then
        Some(Detail(Message("number.min", lbl + " must be greater than or equal to " + NatToString(min.value), messages), path))
      else if max.Some? && v.n > max.value as real then
        Some(Detail(Message("number.max", lbl + " must be less than or equal to " + NatToString(max.value), messages), path))
      else None
    case JValid(allowed) =>
      if v.Str? && v.s in allowed then None
      else Some(Detail(Message("any.only", lbl + " must be one of [" + JoinValues(allowed) + "]", messages), path))
    case JBoolean =>
      if v.Bool? || (v.Str? && BooleanText(v.s)) then None
      else Some(Detail(Message("boolean.base", lbl + " must be a boolean", messages), path))
    case JDate =>
      if v.Date? || v.Num? || (v.Str? && o.parseDate(v.s).Some?) then None
      else Some(Detail(Message("date.base", lbl + " must be a valid date", messages), path))
    case JStringArray =>
      if !v.Arr? then Some(Detail(Message("array.base", lbl + " must be an array", messages), path))
      else CheckItems(v.items, 0, path)
  }

  /** The value `v` (present) satisfies `rule`: the declarative reading of each rule. */
  predicate Satisfies(rule: Rule, v: Value, o: Oracles)
  {
    match rule
    case JString(trim, min, max, email) =>
      && v.Str?
      && var s := if trim then Trim(v.s) else v.s;
         && s != ""
         && (min.Some? ==> Utf16Length(s) >= min.value)
         && (max.Some? ==> Utf16Length(s) <= max.value)
         && (email ==> o.isEmail(s))
    case JNumber(min, max) =>
      && v.Num?
      && (min.Some? ==> v.n >= min.value as real)
      && (max.Some? ==> v.n <= max.value as real)
    case JValid(allowed) => v.Str? && v.s in allowed
    case JBoolean => v.Bool? || (v.Str? && BooleanText(v.s))
    case JDate => v.Date? || v.Num? || (v.Str? && o.parseDate(v.s).Some?)
    case JStringArray =>
      v.Arr? && forall i :: 0 <= i < |v.items| ==> v.items[i].Str? && Trim(v.items[i].s) != ""
  }

  /** A rule reports nothing exactly when the value satisfies it. */
  lemma CheckRuleMeaning(rule: Rule, v: Value, path: seq<PathKey>, messages: map<string, string>, o: Oracles)
    ensures CheckRule(rule, v, path, messages, o).None? <==> Satisfies(rule, v, o)
  {
  }

  /** One key of the schema against the body. */
  function CheckKey(ks: KeySchema, body: Fields, o: Oracles): Option<Detail>
  {
    var v := Get(body, ks.key);
    var path := [Key(ks.key)];
    if v == Undefined then
      if ks.presence.Required? then Some(Detail(Message("any.required", Label(path) + " is required", ks.messages), path))
      else None
    else CheckRule(ks.rule, v, path, ks.messages, o)
  }

  /** The body satisfies one key: present when required, and satisfying the rule when present. */
  predicate KeyOk(ks: KeySchema, body: Fields, o: Oracles)
  {
    var v := Get(body, ks.key);
    if v == Undefined then !ks.presence.Required? else Satisfies(ks.rule, v, o)
  }

  lemma CheckKeyMeaning(ks: KeySchema, body: Fields, o: Oracles)
    ensures CheckKey(ks, body, o).None? <==> KeyOk(ks, body, o)
  {
    var v := Get(body, ks.key);
    if v != Undefined {
      CheckRuleMeaning(ks.rule, v, [Key(ks.key)], ks.messages, o);
    }
  }

  /** The first key, in schema order, that fails. */
  function FirstKeyError(keys: seq<KeySchema>, body: Fields, o: Oracles): Option<Detail>
  {
    if keys == [] then None
    else
      var d := CheckKey(keys[0], body, o);
      if d.Some? then d else FirstKeyError(keys[1..], body, o)
  }

  lemma {:induction false} FirstKeyErrorMeaning(keys: seq<KeySchema>, body: Fields, o: Oracles)
    ensures FirstKeyError(keys, body, o).None? <==> forall i :: 0 <= i < |keys| ==> KeyOk(keys[i], body, o)
  {
    if keys != [] {
      CheckKeyMeaning(keys[0], body, o);
      FirstKeyErrorMeaning(keys[1..], body, o);
      assert forall i :: 1 <= i < |keys| ==> keys[i] == keys[1..][i - 1];
    }
  }

  /** With no key required, the empty body raises no key error. */
  lemma {:induction false} NoKeyErrorOnEmpty(keys: seq<KeySchema>, o: Oracles)
    requires forall ks :: ks in keys ==> !ks.presence.Required?
    ensures FirstKeyError(keys, [], o).None?
  {
    if keys != [] {
      assert keys[0] in keys;
      NoKeyErrorOnEmpty(keys[1..], o);
    }
  }

  function SchemaKeys(keys: seq<KeySchema>): (ks: seq<string>)
    ensures |ks| == |keys|
    ensures forall i :: 0 <= i < |keys| ==> ks[i] == keys[i].key
  {
    if keys == [] then [] else [keys[0].key] + SchemaKeys(keys[1..])
  }

  lemma SchemaKeysConcat(a: seq<KeySchema>, b: seq<KeySchema>)
    ensures SchemaKeys(a + b) == SchemaKeys(a) + SchemaKeys(b)
  {
    assert forall i :: 0 <= i < |b| ==> (a + b)[|a| + i] == b[i];
  }

  /** The first key of the body, in body order, that the schema does not declare. */
  function FirstUnknown(body: Fields, known: seq<string>): (k: Option<string>)
    ensures k.None? <==> forall i :: 0 <= i < |body| ==> body[i].0 in known
    ensures k.Some? ==> k.value !in known && exists i :: 0 <= i < |body| && body[i].0 == k.value
  {
    if body == [] then None
    else if body[0].0 !in known then Some(body[0].0)
    else
      var k := FirstUnknown(body[1..], known);
      assert k.None? ==> forall i :: 1 <= i < |body| ==> body[i].0 == body[1..][i - 1].0;
      assert k.Some? ==> exists i :: 1 <= i < |body| && body[i].0 == k.value by {
        if k.Some? {
          var j :| 0 <= j < |body[1..]| && body[1..][j].0 == k.value;
          assert body[j + 1].0 == k.value;
        }
      }
      k
  }

  /** The distinct keys of the body. */
  function KeySet(body: Fields): set<string>
  {
    set i | 0 <= i < |body| :: body[i].0
  }

  /** `schema.validate(body)`: `None` when there is no error. */
  function Validate(schema: ObjectSchema, body: Fields, o: Oracles): (e: Option<ValidationError>)
    ensures e.Some? ==> |e.value.details| == 1
  {
    var d := FirstKeyError(schema.keys, body, o);
    if d.Some? then Some(ValidationError([d.value]))
    else
      var unknown := FirstUnknown(body, SchemaKeys(schema.keys));
      if unknown.Some? then
        Some(ValidationError([Detail(Label([Key(unknown.value)]) + " is not allowed", [Key(unknown.value)])]))
      else if |KeySet(body)| < schema.minKeys then
        Some(ValidationError([Detail(Label([]) + " must have at least " + NatToString(schema.minKeys) + " key" + (if schema.minKeys == 1 then "" else "s"), [])]))
      else None
  }

  /** Every key of the body is declared by the schema. */
  predicate DeclaredOnly(body: Fields, keys: seq<KeySchema>)
  {
    forall i :: 0 <= i < |body| ==> body[i].0 in SchemaKeys(keys)
  }

  /** A body passes exactly when every key is satisfied, no unknown key occurs and the key count is reached. */
  lemma ValidateMeaning(schema: ObjectSchema, body: Fields, o: Oracles)
    ensures Validate(schema, body, o).None? <==>
      && AllKeysOk(schema.keys, body, o)
      && DeclaredOnly(body, schema.keys)
      && |KeySet(body)| >= schema.minKeys
  {
    FirstKeyErrorMeaning(schema.keys, body, o);
    assert AllKeysOk(schema.keys, body, o) <==> forall i :: 0 <= i < |schema.keys| ==> KeyOk(schema.keys[i], body, o);
  }

  /** Every key schema of the list holds. */
  predicate AllKeysOk(keys: seq<KeySchema>, body: Fields, o: Oracles)
  {
    forall ks :: ks in keys ==> KeyOk(ks, body, o)
  }

  lemma AllKeysOkTwo(k1: KeySchema, k2: KeySchema, body: Fields, o: Oracles)
    ensures AllKeysOk([k1, k2], body, o) <==> KeyOk(k1, body, o) && KeyOk(k2, body, o)
  {
  }

  lemma AllKeysOkThree(k1: KeySchema, k2: KeySchema, k3: KeySchema, body: Fields, o: Oracles)
    ensures AllKeysOk([k1, k2, k3], body, o) <==> KeyOk(k1, body, o) && KeyOk(k2, body, o) && KeyOk(k3, body, o)
  {
  }

  lemma AllKeysOkFive(k1: KeySchema, k2: KeySchema, k3: KeySchema, k4: KeySchema, k5: KeySchema, body: Fields, o: Oracles)
    ensures AllKeysOk([k1, k2, k3, k4, k5], body, o) <==>
      KeyOk(k1, body, o) && KeyOk(k2, body, o) && KeyOk(k3, body, o) && KeyOk(k4, body, o) && KeyOk(k5, body, o)
  {
  }

  lemma AllKeysOkSix(k1: KeySchema, k2: KeySchema, k3: KeySchema, k4: KeySchema, k5: KeySchema, k6: KeySchema, body: Fields, o: Oracles)
    ensures AllKeysOk([k1, k2, k3, k4, k5, k6], body, o) <==>
      KeyOk(k1, body, o) && KeyOk(k2, body, o) && KeyOk(k3, body, o) && KeyOk(k4, body, o) && KeyOk(k5, body, o) && KeyOk(k6, body, o)
  {
  }

  lemma AllKeysOkConcat(a: seq<KeySchema>, b: seq<KeySchema>, body: Fields, o: Oracles)
    ensures AllKeysOk(a + b, body, o) <==> AllKeysOk(a, body, o) && AllKeysOk(b, body, o)
  {
  }

  /**
   * Joi's default `convert` on a present value that passes its rule: a
   * `trim()` string and the items of a string array are trimmed, a boolean
   * word becomes the boolean, and a date given as a number or a string
   * becomes a `Date`. Numbers and enumeration names are kept.
   */
  function Convert(rule: Rule, v: Value, o: Oracles): Value
  {
    match rule
    case JString(trim, _, _, _) => if trim && v.Str? then Str(Trim(v.s)) else v
    case JBoolean => if v.Str? && BooleanText(v.s) then Bool(Lower(v.s) == "true") else v
    case JDate =>
      if v.Num? then Date(Truncate(v.n))
      else if v.Str? && o.parseDate(v.s).Some? then Date(o.parseDate(v.s).value)
      else v
    case JStringArray => if v.Arr? && forall i :: 0 <= i < |v.items| ==> v.items[i].Str? then Arr(TrimItems(v.items)) else v
    case _ => v
  }

  /** The items of a string array, each trimmed. */
  function TrimItems(items: seq<Value>): (r: seq<Value>)
    requires forall i :: 0 <= i < |items| ==> items[i].Str?
    ensures |r| == |items|
    ensures forall i :: 0 <= i < |r| ==> r[i] == Str(Trim(items[i].s))
  {
    seq(|items|, i requires 0 <= i < |items| => Str(Trim(items[i].s)))
  }

  /**
   * The value Joi returns: every present key of the schema converted by its
   * rule, and the default of every absent key that declares one.
   */
  function WithDefaults(keys: seq<KeySchema>, body: Fields, o: Oracles): Fields
  {
    if keys == [] then body
    else
      var rest := WithDefaults(keys[1..], body, o);
      var v := Get(body, keys[0].key);
      if v != Undefined then Set(rest, keys[0].key, Convert(keys[0].rule, v, o))
      else if keys[0].presence.Default? then Set(rest, keys[0].key, keys[0].presence.value)
      else rest
  }

  /** The value Joi makes of a present `v` for key `k`: converted by the first key schema for `k`, if any. */
  function ConvertedOf(keys: seq<KeySchema>, k: string, v: Value, o: Oracles): Value
  {
    var rule := RuleOf(keys, k);
    if rule.Some? then Convert(rule.value, v, o) else v
  }

  /** The rule of the first key schema for key `k`, if the schema declares `k`. */
  function RuleOf(keys: seq<KeySchema>, k: string): Option<Rule>
  {
    if keys == [] then None
    else if keys[0].key == k then Some(keys[0].rule)
    else RuleOf(keys[1..], k)
  }

  /** The default the schema gives key `k`: that of the first key schema for `k` that declares one. */
  function DefaultOf(keys: seq<KeySchema>, k: string): Value
  {
    if keys == [] then Undefined
    else if keys[0].key == k && keys[0].presence.Default? then keys[0].presence.value
    else DefaultOf(keys[1..], k)
  }

  /** Joi's value converts every key the body has and gives an absent key its default. */
  lemma {:induction false} WithDefaultsGet(keys: seq<KeySchema>, body: Fields, k: string, o: Oracles)
    ensures Get(WithDefaults(keys, body, o), k) ==
            if Get(body, k) != Undefined then ConvertedOf(keys, k, Get(body, k), o) else DefaultOf(keys, k)
  {
    if keys != [] {
      WithDefaultsGet(keys[1..], body, k, o);
      var v := Get(body, keys[0].key);
      if v != Undefined {
        GetSet(WithDefaults(keys[1..], body, o), keys[0].key, Convert(keys[0].rule, v, o), k);
      } else if keys[0].presence.Default? {
        GetSet(WithDefaults(keys[1..], body, o), keys[0].key, keys[0].presence.value, k);
      }
    }
  }

  /** The rule of the first key schema for a key is the one Joi applies. */
  lemma {:induction false} RuleOfFirst(keys: seq<KeySchema>, i: nat)
    requires i < |keys|
    requires forall j :: 0 <= j < i ==> keys[j].key != keys[i].key
    ensures RuleOf(keys, keys[i].key) == Some(keys[i].rule)
  {
    if i > 0 {
      RuleOfFirst(keys[1..], i - 1);
    }
  }

  /** The default of the first key schema for a key is the one Joi applies. */
  lemma {:induction false} DefaultOfFirst(keys: seq<KeySchema>, i: nat)
    requires i < |keys| && keys[i].presence.Default?
    requires forall j :: 0 <= j < i ==> keys[j].key != keys[i].key
    ensures DefaultOf(keys, keys[i].key) == keys[i].presence.value
  {
    if i > 0 {
      DefaultOfFirst(keys[1..], i - 1);
    }
  }
}

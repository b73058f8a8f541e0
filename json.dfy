/**
 * JavaScript values as they travel through the backend: request bodies,
 * documents and response payloads. Objects keep their keys in insertion
 * order, as JavaScript objects do.
 */
module Json {

  datatype Value =
    | Undefined
    | Null
    | Bool(b: bool)
    | Num(n: real)                              // a finite JavaScript number
    | Str(s: string)
    | Oid(hex: string)                          // a Mongoose ObjectId
    | Date(ms: int)                             // a Date, as milliseconds since the epoch
    | Err(reason: string)                       // a thrown Error object
    | Arr(items: seq<Value>)
    | Obj(fields: seq<(string, Value)>)

  type Fields = seq<(string, Value)>

  /**
   * A schema path that is not required, as a document stores it: absent,
   * set to `null` (Mongoose keeps `null` and skips the path's validators),
   * or holding a value.
   */
  datatype Slot<T> = Unset | Nulled | Held(value: T)

  /** The binding a stored slot puts in a document: none when unset, `k: null`, or `k` and the rendered value. */
  function SlotField<T>(k: string, slot: Slot<T>, render: T -> Value): (r: Fields)
    ensures slot.Unset? <==> r == []
    ensures slot.Nulled? ==> r == [(k, Null)]
    ensures slot.Held? ==> r == [(k, render(slot.value))]
  {
    match slot
    case Unset => []
    case Nulled => [(k, Null)]
    case Held(x) => [(k, render(x))]
  }

  /** Truncation toward zero, as `new Date(n)` does with a fractional number of milliseconds. */
  function Truncate(n: real): (ms: int)
    ensures n >= 0.0 ==> 0.0 <= ms as real <= n < ms as real + 1.0
    ensures n < 0.0 ==> ms as real - 1.0 < n <= ms as real <= 0.0
  {
    if n >= 0.0 then n.Floor else -((-n).Floor)
  }

  /**
   * JavaScript truthiness: `undefined`, `null`, `false`, `0` and `""` are
   * falsy; every object (arrays, ObjectIds, Dates, Errors included) is truthy.
   */
  predicate Truthy(v: Value)
  {
    match v
    case Undefined => false
    case Null => false
    case Bool(b) => b
    case Num(n) => n != 0.0
    case Str(s) => s != ""
    case _ => true
  }

  /** The object has a binding for `k`. */
  predicate HasKey(o: Fields, k: string)
  {
    exists i :: 0 <= i < |o| && o[i].0 == k
  }

  /** `o[k]`: the value of the first binding of `k`, or `undefined`. */
  function Get(o: Fields, k: string): (v: Value)
    ensures !HasKey(o, k) ==> v == Undefined
  {
    if o == [] then Undefined
    else if o[0].0 == k then o[0].1
    else Get(o[1..], k)
  }

  /** The keys of `o`, in order. */
  function Keys(o: Fields): (ks: seq<string>)
    ensures |ks| == |o|
    ensures forall i :: 0 <= i < |o| ==> ks[i] == o[i].0
  {
    if o == [] then [] else [o[0].0] + Keys(o[1..])
  }

  /** `delete o[k]`: every binding of `k` removed, the rest kept in order. */
  function Without(o: Fields, k: string): (r: Fields)
    ensures !HasKey(r, k)
    ensures |r| <= |o|
    ensures forall i :: 0 <= i < |r| ==> r[i] in o
  {
    if o == [] then []
    else if o[0].0 == k then Without(o[1..], k)
    else [o[0]] + Without(o[1..], k)
  }

  /** `delete o[k]` removes `k` and leaves every other key's value as it was. */
  lemma {:induction false} GetWithout(o: Fields, k: string, j: string)
    ensures Get(Without(o, k), j) == if j == k then Undefined else Get(o, j)
  {
    if o != [] {
      GetWithout(o[1..], k, j);
    }
  }

  /** Appending a binding for a key `o` lacks: `k` reads `v` and every other key reads as before. */
  lemma {:induction false} GetAppend(o: Fields, k: string, v: Value, j: string)
    requires !HasKey(o, k)
    ensures Get(o + [(k, v)], j) == if j == k then v else Get(o, j)
  {
    if o != [] {
      assert (o + [(k, v)])[1..] == o[1..] + [(k, v)];
      GetAppend(o[1..], k, v, j);
    }
  }

  /** `{...o, k: v}`: an existing binding keeps its place and takes `v`; otherwise `k` is appended. */
  function Set(o: Fields, k: string, v: Value): (r: Fields)
    ensures Get(r, k) == v
  {
    if o == [] then [(k, v)]
    else if o[0].0 == k then [(k, v)] + Without(o[1..], k)
    else [o[0]] + Set(o[1..], k, v)
  }

  /** After `{...o, k: v}`, `k` reads `v` and every other key reads what it read in `o`. */
  lemma {:induction false} GetSet(o: Fields, k: string, v: Value, j: string)
    ensures Get(Set(o, k, v), j) == if j == k then v else Get(o, j)
  {
    if o != [] {
      if o[0].0 == k {
        GetWithout(o[1..], k, j);
      } else {
        GetSet(o[1..], k, v, j);
      }
    }
  }
}

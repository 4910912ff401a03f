/** The generic document tree that YAML parsing yields, together with the
    JavaScript notions the projection relies on: property access on a value,
    `undefined` for a property that is not there, and truthiness as `&&` and
    `||` use it. */
module Document {

  /** `None` stands for JavaScript's `undefined`. */
  datatype Option<T> = None | Some(value: T)

  /** An object keeps its own properties in the order `Object.keys` lists them. */
  datatype Json =
    | Null
    | Bool(b: bool)
    | Num(n: int)
    | Str(s: string)
    | Arr(items: seq<Json>)
    | Obj(members: seq<(string, Json)>)

  type Members = seq<(string, Json)>

  /** The empty object literal `{}`. */
  const EmptyObject: Json := Obj([])

  /** A JavaScript object never has the same own key twice. */
  predicate DistinctKeys(ms: Members) {
    forall i, j :: 0 <= i < j < |ms| ==> ms[i].0 != ms[j].0
  }

  /** `Object.keys` of an object with members `ms`. */
  function Keys(ms: Members): (r: seq<string>)
    ensures |r| == |ms|
    ensures forall i :: 0 <= i < |ms| ==> r[i] == ms[i].0
    ensures forall key :: key in r <==> Lookup(ms, key).Some?
  {
    seq(|ms|, i requires 0 <= i < |ms| => ms[i].0)
  }

  /** `o[key]` on an object with members `ms`. */
  function Lookup(ms: Members, key: string): (r: Option<Json>)
    ensures r.None? <==> forall i :: 0 <= i < |ms| ==> ms[i].0 != key
  {
    if ms == [] then None
    else if ms[0].0 == key then Some(ms[0].1)
    else Lookup(ms[1..], key)
  }

  /** `v.key` on a value that is neither `null` nor `undefined`: only an
      object has the properties this projection reads, every other value
      gives `undefined`. */
  function Get(v: Json, key: string): (r: Option<Json>)
    ensures r.None? <==> !v.Obj? || forall i :: 0 <= i < |v.members| ==> v.members[i].0 != key
  {
    if v.Obj? then Lookup(v.members, key) else None
  }

  /** `o.key` where `o` has already been tested truthy; `undefined` otherwise. */
  function Prop(o: Option<Json>, key: string): (r: Option<Json>)
    ensures r.Some? ==> o.Some? && o.value.Obj? && Truthy(o)
    ensures o.Some? ==> r == Get(o.value, key)
  {
    if o.Some? then Get(o.value, key) else None
  }

  /** JavaScript truthiness of a possibly `undefined` value. */
  predicate Truthy(o: Option<Json>): (b: bool)
    ensures b ==> o.Some? && o.value != Null
    ensures o.Some? && (o.value.Arr? || o.value.Obj?) ==> b
    ensures o.Some? && o.value.Str? ==> (b <==> |o.value.s| > 0)
  {
    match o
    case None => false
    case Some(Null) => false
    case Some(Bool(b)) => b
    case Some(Num(n)) => n != 0
    case Some(Str(s)) => s != ""
    case Some(Arr(_)) => true
    case Some(Obj(_)) => true
  }

  /** `o || fallback`: the left operand when it is truthy, the right one otherwise. */
  function Or(o: Option<Json>, fallback: Json): (r: Json)
    ensures Truthy(o) ==> Some(r) == o
    ensures !Truthy(o) ==> r == fallback
    ensures Truthy(Some(r)) <==> Truthy(o) || Truthy(Some(fallback))
  {
    if Truthy(o) then o.value else fallback
  }

  /** Property access finds the first member with the key. */
  lemma {:induction false} LookupFirst(ms: Members, key: string, i: nat)
    requires i < |ms| && ms[i].0 == key
    requires forall l :: 0 <= l < i ==> ms[l].0 != key
    ensures Lookup(ms, key) == Some(ms[i].1)
  {
    if i > 0 {
      LookupFirst(ms[1..], key, i - 1);
    }
  }

  /** In an object with distinct keys, the value under the `j`-th key that
      `Object.keys` lists is the `j`-th member's value. */
  lemma LookupDistinct(ms: Members, j: nat)
    requires DistinctKeys(ms) && j < |ms|
    ensures Lookup(ms, ms[j].0) == Some(ms[j].1)
  {
    LookupFirst(ms, ms[j].0, j);
  }
}

/**
 * JavaScript values as the services see them after JSON parsing, with the
 * few JavaScript operators the room logic relies on: truthiness (`||`,
 * `!x`), property access on a value that may not be an object, and strict
 * equality (`===`).
 */
module Json {

  datatype Option<+T> = None | Some(value: T)

  /** A parsed JSON value. Numbers are integers: the core never computes with fractions. */
  datatype Json =
    | JNull
    | JBool(b: bool)
    | JNum(n: int)
    | JStr(s: string)
    | JArr(items: seq<Json>)
    | JObj(fields: map<string, Json>)

  /** A JavaScript object used as a record; a missing key reads as `undefined`. */
  type Obj = map<string, Json>

  /** JavaScript truthiness: `null`, `false`, `0` and `""` are falsy, everything else is truthy. */
  predicate Truthy(v: Json) {
    match v
    case JNull => false
    case JBool(b) => b
    case JNum(n) => n != 0
    case JStr(s) => s != ""
    case _ => true
  }

  /** The JSON values JavaScript treats as false. */
  const FalsyValues: set<Json> := {JNull, JBool(false), JNum(0), JStr("")}

  /** A JSON value is truthy exactly when it is none of the four falsy values. */
  lemma TruthyIff(v: Json)
    ensures Truthy(v) <==> v !in FalsyValues
  {
  }

  /** `o.k` on a possibly-absent value: `None` stands for `undefined`. */
  function Get(o: Obj, k: string): Option<Json> {
    if k in o then Some(o[k]) else None
  }

  /**
   * `v.k` for an arbitrary non-null value: only objects have own data
   * properties here, so any other value reads `undefined`.
   */
  function Prop(v: Json, k: string): Option<Json> {
    if v.JObj? then Get(v.fields, k) else None
  }

  /** `o.k || d`: the property when it is present and truthy, the default otherwise. */
  function OrDefault(o: Obj, k: string, d: Json): (r: Json)
    ensures k in o && Truthy(o[k]) ==> r == o[k]
    ensures !(k in o && Truthy(o[k])) ==> r == d
  {
    if k in o && Truthy(o[k]) then o[k] else d
  }

  predicate IsPrimitive(v: Json) {
    !v.JArr? && !v.JObj?
  }

  /**
   * `a === b` on two parsed values: primitives compare by value, while two
   * separately parsed arrays or objects are distinct references and never equal.
   */
  predicate StrictEquals(a: Json, b: Json) {
    a == b && IsPrimitive(a)
  }

  /** `a === b` where either side may be `undefined` (`None`). */
  predicate StrictEqualsOpt(a: Option<Json>, b: Option<Json>) {
    (a.None? && b.None?) || (a.Some? && b.Some? && StrictEquals(a.value, b.value))
  }

  /** A list of key/value pairs in insertion order, as `Object.entries` yields them. */
  type Entries = seq<(string, Json)>

  /** The object whose own properties are `es`, the later entry winning on a repeated key. */
  function ToObj(es: Entries): (o: Obj)
    ensures o.Keys == set i | 0 <= i < |es| :: es[i].0
    decreases |es|
  {
    if es == [] then map[] else ToObj(es[..|es| - 1])[es[|es| - 1].0 := es[|es| - 1].1]
  }

  lemma {:induction false} ToObjDistinct(es: Entries, i: nat)
    requires i < |es|
    requires forall p, q :: 0 <= p < q < |es| ==> es[p].0 != es[q].0
    ensures es[i].0 in ToObj(es) && ToObj(es)[es[i].0] == es[i].1
    decreases |es|
  {
    if i < |es| - 1 {
      ToObjDistinct(es[..|es| - 1], i);
    }
  }
}

/**
 * The durable tier: a document table keyed by room id, with the three
 * operations the room service sends it (put an item, get an item, and an
 * update whose `SET` expression names attributes either inline or through
 * `#name` placeholders). The table is an abstract map; its own reserved-word
 * list, capacity and validation rules are not part of the model.
 */
module DurableTable {
  import opened Json

  /** One `path = valueRef` term of a `SET` expression; `path` is an attribute name or a `#name` placeholder. */
  datatype SetTerm = SetTerm(path: string, valueRef: string)

  /** `UpdateExpression`, `ExpressionAttributeValues` and `ExpressionAttributeNames` of an update. */
  datatype SetParams = SetParams(terms: seq<SetTerm>, values: map<string, Json>, names: map<string, string>)

  function RenderTerm(t: SetTerm): string {
    t.path + " = " + t.valueRef
  }

  function JoinTerms(ts: seq<SetTerm>): string
    decreases |ts|
  {
    if ts == [] then ""
    else if |ts| == 1 then RenderTerm(ts[0])
    else JoinTerms(ts[..|ts| - 1]) + ", " + RenderTerm(ts[|ts| - 1])
  }

  /** The `UpdateExpression` text: `"SET " + terms.join(", ")`. */
  function UpdateExpression(p: SetParams): string {
    "SET " + JoinTerms(p.terms)
  }

  /** The attribute a term's path designates: a placeholder is looked up, anything else is literal. */
  function ResolvePath(path: string, names: map<string, string>): Option<string> {
    if |path| > 0 && path[0] == '#' then
      (if path in names then Some(names[path]) else None)
    else Some(path)
  }

  /** The assignment one term performs, or `None` when it refers to an undefined name or value. */
  function EvalTerm(t: SetTerm, values: map<string, Json>, names: map<string, string>): Option<(string, Json)> {
    var attr := ResolvePath(t.path, names);
    if attr.Some? && t.valueRef in values then Some((attr.value, values[t.valueRef])) else None
  }

  /** The assignments a `SET` expression performs, in order; `None` if any term is ill-formed. */
  function EvalTerms(ts: seq<SetTerm>, values: map<string, Json>, names: map<string, string>): Option<Entries>
    decreases |ts|
  {
    if ts == [] then Some([])
    else
      var front := EvalTerms(ts[..|ts| - 1], values, names);
      var last := EvalTerm(ts[|ts| - 1], values, names);
      if front.Some? && last.Some? then Some(front.value + [last.value]) else None
  }

  function Evaluate(p: SetParams): Option<Entries> {
    EvalTerms(p.terms, p.values, p.names)
  }

  /** Terms that each evaluate to the matching entry evaluate, together, to the whole list. */
  lemma {:induction false} EvalTermsPointwise(ts: seq<SetTerm>, values: map<string, Json>, names: map<string, string>, es: Entries)
    requires |ts| == |es|
    requires forall i :: 0 <= i < |ts| ==> EvalTerm(ts[i], values, names) == Some(es[i])
    ensures EvalTerms(ts, values, names) == Some(es)
    decreases |ts|
  {
    if ts != [] {
      EvalTermsPointwise(ts[..|ts| - 1], values, names, es[..|es| - 1]);
      assert es[..|es| - 1] + [es[|es| - 1]] == es;
    }
  }

  /** The item an update starts from: the stored item, or a fresh item holding only its key. */
  function UpdateBase(items: map<string, Obj>, key: string): Obj {
    if key in items then items[key] else map["id" := JStr(key)]
  }

  class RoomTable {
    var items: map<string, Obj>

    constructor ()
      ensures items == map[]
    {
      items := map[];
    }

    /** `PutCommand`: stores `item` under `key`, replacing any previous item. */
    method Put(key: string, item: Obj)
      modifies this
      ensures items == old(items)[key := item]
    {
      items := items[key := item];
    }

    /** `GetCommand`: the stored item, if any. */
    method Get(key: string) returns (item: Option<Obj>)
      ensures item.Some? <==> key in items
      ensures item.Some? ==> item.value == items[key]
    {
      item := if key in items then Some(items[key]) else None;
    }

    /**
     * `UpdateCommand` with `ReturnValues: "ALL_NEW"`: performs the `SET`
     * assignments on the item (created from its key when absent) and
     * returns the whole new item; an ill-formed expression changes nothing.
     */
    method Update(key: string, p: SetParams) returns (attrs: Option<Obj>)
      modifies this
      ensures Evaluate(p).None? ==> attrs.None? && items == old(items)
      ensures Evaluate(p).Some? ==>
        && attrs == Some(UpdateBase(old(items), key) + ToObj(Evaluate(p).value))
        && items == old(items)[key := attrs.value]
    {
      var assignments := Evaluate(p);
      if assignments.None? {
        return None;
      }
      var item := UpdateBase(items, key) + ToObj(assignments.value);
      items := items[key := item];
      attrs := Some(item);
    }
  }
}

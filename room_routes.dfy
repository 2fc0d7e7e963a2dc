/**
 * The room service's HTTP handlers for create, get, update and share. The
 * caller's identity arrives in two headers; the handlers pick the guest
 * tier or the durable tier from them and never fall back to the other.
 * Generated ids, names and timestamps are parameters.
 */
module RoomRoutes {
  import opened Json
  import opened RoomRecords
  import opened GuestRooms
  import opened DurableTable

  /** The two caller headers the room service reads, `x-user-type` and `x-user-id`. */
  datatype Headers = Headers(userType: Option<string>, userId: Option<string>)

  /** `userType === "guest" || !userId`: the test every handler uses to choose the guest tier. */
  predicate IsGuestCaller(h: Headers) {
    h.userType == Some("guest") || h.userId.None? || h.userId.value == ""
  }

  /** A handler's response; `ServerError` is a failure handed to the error middleware. */
  datatype Reply =
    | Ok(status: int, body: Json)
    | NotFound(message: string)
    | BadRequest(message: string)
    | Forbidden(message: string)
    | ServerError

  function StatusOf(r: Reply): int {
    match r
    case Ok(s, _) => s
    case NotFound(_) => 404
    case BadRequest(_) => 400
    case Forbidden(_) => 403
    case ServerError => 500
  }

  /** The JSON body sent, except for a failure whose error message is not modelled. */
  function BodyOf(r: Reply): Option<Json> {
    match r
    case Ok(_, b) => Some(b)
    case NotFound(m) => Some(JObj(map["error" := JStr(m)]))
    case BadRequest(m) => Some(JObj(map["error" := JStr(m)]))
    case Forbidden(m) => Some(JObj(map["error" := JStr(m)]))
    case ServerError => None
  }

  const AllowedFields: seq<string> := ["name", "language", "type", "content"]
  const ReservedWords: seq<string> := ["name", "type", "language"]

  // ---------------------------------------------------------------------
  // The update allow-list

  /** The entries of `body` whose key is in `fields`, in the order of `fields`. */
  function AllowedEntries(body: Obj, fields: seq<string>): Entries
    decreases |fields|
  {
    if fields == [] then []
    else
      var k := fields[|fields| - 1];
      AllowedEntries(body, fields[..|fields| - 1]) + (if k in body then [(k, body[k])] else [])
  }

  /** The filtered update both update paths compute. */
  function FilteredUpdates(body: Obj): Entries {
    AllowedEntries(body, AllowedFields)
  }

  /** The part of `body` whose keys are listed in `fields`. */
  function Restrict(body: Obj, fields: seq<string>): Obj {
    map k | k in body && k in fields :: body[k]
  }

  lemma RestrictSnoc(body: Obj, front: seq<string>, k: string)
    ensures Restrict(body, front + [k]) == if k in body then Restrict(body, front)[k := body[k]] else Restrict(body, front)
  {
    var fields := front + [k];
    assert forall x :: x in fields <==> x in front || x == k;
  }

  lemma DistinctSnoc(fields: seq<string>)
    requires fields != []
    requires forall p, q :: 0 <= p < q < |fields| ==> fields[p] != fields[q]
    ensures fields[|fields| - 1] !in fields[..|fields| - 1]
    ensures fields == fields[..|fields| - 1] + [fields[|fields| - 1]]
  {
    var front := fields[..|fields| - 1];
    assert forall p :: 0 <= p < |front| ==> front[p] == fields[p] != fields[|fields| - 1];
  }

  /** Every kept entry is an allowed key present in the body, with the body's value, and no key is kept twice. */
  lemma {:induction false} AllowedEntriesFromBody(body: Obj, fields: seq<string>)
    requires forall p, q :: 0 <= p < q < |fields| ==> fields[p] != fields[q]
    ensures forall i :: 0 <= i < |AllowedEntries(body, fields)| ==>
      var e := AllowedEntries(body, fields)[i]; e.0 in fields && e.0 in body && e.1 == body[e.0]
    ensures forall p, q :: 0 <= p < q < |AllowedEntries(body, fields)| ==>
      AllowedEntries(body, fields)[p].0 != AllowedEntries(body, fields)[q].0
    decreases |fields|
  {
    if fields != [] {
      var front := fields[..|fields| - 1];
      var k := fields[|fields| - 1];
      DistinctSnoc(fields);
      AllowedEntriesFromBody(body, front);
      var es0 := AllowedEntries(body, front);
      var es := AllowedEntries(body, fields);
      assert forall x :: x in front ==> x in fields;
      if k in body {
        assert es == es0 + [(k, body[k])];
        assert forall i :: 0 <= i < |es0| ==> es0[i].0 != k;
      } else {
        assert es == es0;
      }
    }
  }

  /** As an object, the kept entries are the body restricted to the allowed keys. */
  lemma {:induction false} AllowedEntriesAsObj(body: Obj, fields: seq<string>)
    ensures ToObj(AllowedEntries(body, fields)) == Restrict(body, fields)
    decreases |fields|
  {
    if fields != [] {
      var front := fields[..|fields| - 1];
      var k := fields[|fields| - 1];
      assert fields == front + [k];
      AllowedEntriesAsObj(body, front);
      RestrictSnoc(body, front, k);
      var es0 := AllowedEntries(body, front);
      if k in body {
        var es := es0 + [(k, body[k])];
        assert AllowedEntries(body, fields) == es;
        assert es[..|es| - 1] == es0;
        assert ToObj(es) == ToObj(es0)[k := body[k]];
      } else {
        assert AllowedEntries(body, fields) == es0;
      }
    }
  }

  /** Nothing is kept exactly when no allowed key is present. */
  lemma {:induction false} AllowedEntriesEmpty(body: Obj, fields: seq<string>)
    ensures |AllowedEntries(body, fields)| == 0 <==> forall k :: k in fields ==> k !in body
    decreases |fields|
  {
    if fields != [] {
      var front := fields[..|fields| - 1];
      assert fields == front + [fields[|fields| - 1]];
      AllowedEntriesEmpty(body, front);
    }
  }

  /** The surviving fields, written out in allow-list order. */
  lemma FilteredUpdatesOrder(body: Obj)
    ensures FilteredUpdates(body) ==
      (if "name" in body then [("name", body["name"])] else [])
      + (if "language" in body then [("language", body["language"])] else [])
      + (if "type" in body then [("type", body["type"])] else [])
      + (if "content" in body then [("content", body["content"])] else [])
  {
    var f4 := AllowedFields;
    var f3 := ["name", "language", "type"];
    var f2 := ["name", "language"];
    var f1 := ["name"];
    assert f4[..3] == f3 && f3[..2] == f2 && f2[..1] == f1 && f1[..0] == [];
    assert AllowedEntries(body, f1) == AllowedEntries(body, []) + (if "name" in body then [("name", body["name"])] else []);
    assert AllowedEntries(body, f2) == AllowedEntries(body, f1) + (if "language" in body then [("language", body["language"])] else []);
    assert AllowedEntries(body, f3) == AllowedEntries(body, f2) + (if "type" in body then [("type", body["type"])] else []);
    assert AllowedEntries(body, f4) == AllowedEntries(body, f3) + (if "content" in body then [("content", body["content"])] else []);
  }

  /** The `for (const key of allowedFields)` loop that builds `updates` / `updateFields`. */
  method FilterUpdates(body: Obj) returns (updates: Entries)
    ensures updates == FilteredUpdates(body)
  {
    updates := [];
    var i := 0;
    while i < |AllowedFields|
      invariant 0 <= i <= |AllowedFields|
      invariant updates == AllowedEntries(body, AllowedFields[..i])
    {
      var key := AllowedFields[i];
      assert AllowedFields[..i + 1][..i] == AllowedFields[..i];
      if key in body {
        updates := updates + [(key, body[key])];
      }
      i := i + 1;
    }
    assert AllowedFields[..i] == AllowedFields;
  }

  // ---------------------------------------------------------------------
  // The durable update's SET expression

  /** One term: a reserved word goes through a `#name` placeholder, any other key is written inline. */
  function TermFor(k: string): (t: SetTerm)
    ensures k in ReservedWords ==> RenderTerm(t) == "#" + k + " = :" + k
    ensures k !in ReservedWords ==> RenderTerm(t) == k + " = :" + k
  {
    if k in ReservedWords then SetTerm("#" + k, ":" + k) else SetTerm(k, ":" + k)
  }

  /** The expression, values and names the building loop arrives at after `updates`. */
  function SetParamsFor(updates: Entries): SetParams
    decreases |updates|
  {
    if updates == [] then SetParams([], map[], map[])
    else
      var p := SetParamsFor(updates[..|updates| - 1]);
      var (k, v) := updates[|updates| - 1];
      SetParams(p.terms + [TermFor(k)], p.values[":" + k := v],
                if k in ReservedWords then p.names["#" + k := k] else p.names)
  }

  /** The loop filling `updateExpr`, `exprAttrVals` and `exprAttrNames`. */
  method BuildSetExpression(updates: Entries) returns (p: SetParams)
    ensures p == SetParamsFor(updates)
  {
    var terms: seq<SetTerm> := [];
    var values: map<string, Json> := map[];
    var names: map<string, string> := map[];
    var i := 0;
    while i < |updates|
      invariant 0 <= i <= |updates|
      invariant SetParams(terms, values, names) == SetParamsFor(updates[..i])
    {
      var (key, value) := updates[i];
      assert updates[..i + 1][..i] == updates[..i];
      if key in ReservedWords {
        terms := terms + [SetTerm("#" + key, ":" + key)];
        names := names["#" + key := key];
      } else {
        terms := terms + [SetTerm(key, ":" + key)];
      }
      values := values[":" + key := value];
      i := i + 1;
    }
    assert updates[..i] == updates;
    p := SetParams(terms, values, names);
  }

  lemma PrefixInjective(c: string, a: string, b: string)
    requires c + a == c + b
    ensures a == b
  {
    assert a == (c + a)[|c|..];
    assert b == (c + b)[|c|..];
  }

  /** One term per field, in the fields' order. */
  lemma {:induction false} SetParamsTerms(updates: Entries)
    ensures |SetParamsFor(updates).terms| == |updates|
    ensures forall i :: 0 <= i < |updates| ==> SetParamsFor(updates).terms[i] == TermFor(updates[i].0)
    decreases |updates|
  {
    if updates != [] {
      SetParamsTerms(updates[..|updates| - 1]);
    }
  }

  /** A `:k` value holding the field's value for every field. */
  lemma {:induction false} SetParamsValues(updates: Entries)
    requires forall p, q :: 0 <= p < q < |updates| ==> updates[p].0 != updates[q].0
    ensures forall i :: 0 <= i < |updates| ==>
      ":" + updates[i].0 in SetParamsFor(updates).values && SetParamsFor(updates).values[":" + updates[i].0] == updates[i].1
    decreases |updates|
  {
    if updates != [] {
      var n := |updates| - 1;
      var front := updates[..n];
      SetParamsValues(front);
      forall i | 0 <= i < n ensures ":" + updates[i].0 != ":" + updates[n].0 {
        if ":" + updates[i].0 == ":" + updates[n].0 { PrefixInjective(":", updates[i].0, updates[n].0); }
      }
      assert forall i :: 0 <= i < n ==> front[i] == updates[i];
    }
  }

  /** A `#k` name for each reserved word among the fields, and no other name; `content` gets none. */
  lemma {:induction false} SetParamsNames(updates: Entries)
    ensures forall i :: 0 <= i < |updates| && updates[i].0 in ReservedWords ==>
      "#" + updates[i].0 in SetParamsFor(updates).names && SetParamsFor(updates).names["#" + updates[i].0] == updates[i].0
    ensures forall n :: n in SetParamsFor(updates).names ==>
      SetParamsFor(updates).names[n] in ReservedWords && n == "#" + SetParamsFor(updates).names[n]
    decreases |updates|
  {
    if updates != [] {
      var n := |updates| - 1;
      var front := updates[..n];
      SetParamsNames(front);
      assert forall i :: 0 <= i < n ==> front[i] == updates[i];
      var k := updates[n].0;
      forall i | 0 <= i < n && updates[i].0 in ReservedWords && k in ReservedWords && "#" + updates[i].0 == "#" + k
        ensures updates[i].0 == k
      {
        PrefixInjective("#", updates[i].0, k);
      }
    }
  }

  /** Under the round trip's conditions, the term built for field `i` performs exactly that field's assignment. */
  lemma TermEvaluates(updates: Entries, i: nat)
    requires forall p, q :: 0 <= p < q < |updates| ==> updates[p].0 != updates[q].0
    requires forall j :: 0 <= j < |updates| ==> updates[j].0 in AllowedFields
    requires i < |updates|
    ensures i < |SetParamsFor(updates).terms|
    ensures EvalTerm(SetParamsFor(updates).terms[i], SetParamsFor(updates).values, SetParamsFor(updates).names) == Some(updates[i])
  {
    SetParamsTerms(updates);
    SetParamsValues(updates);
    SetParamsNames(updates);
    var k := updates[i].0;
    if k in ReservedWords {
      assert ("#" + k)[0] == '#';
    } else {
      assert k == "content";
    }
  }

  /**
   * The SET expression the handler builds performs exactly the filtered
   * updates, in order, when the table evaluates it.
   */
  lemma SetParamsRoundTrip(updates: Entries)
    requires forall p, q :: 0 <= p < q < |updates| ==> updates[p].0 != updates[q].0
    requires forall i :: 0 <= i < |updates| ==> updates[i].0 in AllowedFields
    ensures Evaluate(SetParamsFor(updates)) == Some(updates)
  {
    var p := SetParamsFor(updates);
    SetParamsTerms(updates);
    forall i | 0 <= i < |updates| ensures EvalTerm(p.terms[i], p.values, p.names) == Some(updates[i]) {
      TermEvaluates(updates, i);
    }
    EvalTermsPointwise(p.terms, p.values, p.names, updates);
  }

  /**
   * A content-only update renders without placeholders, so it is sent with an
   * empty `ExpressionAttributeNames` object.
   */
  lemma ContentOnlyUpdateHasNoNames(v: Json)
    ensures UpdateExpression(SetParamsFor([("content", v)])) == "SET content = :content"
    ensures SetParamsFor([("content", v)]).names == map[]
  {
    var u := [("content", v)];
    assert u[..0] == [];
    assert SetParamsFor(u).terms == [TermFor("content")];
  }

  /** The filtered updates of any body satisfy what the round trip needs. */
  lemma FilteredUpdatesWellFormed(body: Obj)
    ensures var es := FilteredUpdates(body);
      && (forall p, q :: 0 <= p < q < |es| ==> es[p].0 != es[q].0)
      && (forall i :: 0 <= i < |es| ==> es[i].0 in AllowedFields && es[i].0 in body && es[i].1 == body[es[i].0])
      && ToObj(es) == Restrict(body, AllowedFields)
      && (|es| == 0 <==> forall k :: k in AllowedFields ==> k !in body)
  {
    AllowedEntriesFromBody(body, AllowedFields);
    AllowedEntriesAsObj(body, AllowedFields);
    AllowedEntriesEmpty(body, AllowedFields);
  }

  // ---------------------------------------------------------------------
  // The share upsert

  /** `member.userId === memberUserId` for a member that is not `null`. */
  predicate Matches(member: Json, uid: Json) {
    member.JObj? && "userId" in member.fields && StrictEquals(member.fields["userId"], uid)
  }

  predicate AnyMatch(members: seq<Json>, uid: Json) {
    exists i :: 0 <= i < |members| && Matches(members[i], uid)
  }

  lemma AnyMatchSnoc(members: seq<Json>, m: Json, uid: Json)
    ensures AnyMatch(members + [m], uid) <==> AnyMatch(members, uid) || Matches(m, uid)
  {
    var ms := members + [m];
    if AnyMatch(ms, uid) && !Matches(m, uid) {
      var j :| 0 <= j < |ms| && Matches(ms[j], uid);
      assert j < |members| && ms[j] == members[j];
    }
    if AnyMatch(members, uid) {
      var j :| 0 <= j < |members| && Matches(members[j], uid);
      assert ms[j] == members[j];
    }
    if Matches(m, uid) {
      assert ms[|members|] == m;
    }
  }

  /** `members.map(...)`: every matching member becomes `{ userId, role }`, others stay. */
  function Replaced(members: seq<Json>, uid: Json, role: Json): seq<Json>
    decreases |members|
  {
    if members == [] then []
    else
      var m := members[|members| - 1];
      Replaced(members[..|members| - 1], uid, role) + [if Matches(m, uid) then MemberRecord(uid, role) else m]
  }

  /**
   * The members list share writes back: matches replaced, or the new member
   * appended when nothing matched. `None` when a member is `null`, since
   * reading `null.userId` throws.
   */
  function Upserted(members: seq<Json>, uid: Json, role: Json): Option<seq<Json>> {
    if JNull in members then None
    else if AnyMatch(members, uid) then Some(Replaced(members, uid, role))
    else Some(Replaced(members, uid, role) + [MemberRecord(uid, role)])
  }

  /** The `map` with the `updated` flag, then the conditional `push`. */
  method UpsertMember(members: seq<Json>, uid: Json, role: Json) returns (r: Option<seq<Json>>)
    ensures r == Upserted(members, uid, role)
  {
    var updated := false;
    var result: seq<Json> := [];
    var i := 0;
    while i < |members|
      invariant 0 <= i <= |members|
      invariant result == Replaced(members[..i], uid, role)
      invariant updated == AnyMatch(members[..i], uid)
      invariant JNull !in members[..i]
    {
      var member := members[i];
      assert members[..i + 1][..i] == members[..i];
      assert members[..i + 1] == members[..i] + [member];
      AnyMatchSnoc(members[..i], member, uid);
      if member.JNull? {
        return None;
      }
      if Matches(member, uid) {
        updated := true;
        result := result + [MemberRecord(uid, role)];
      } else {
        result := result + [member];
      }
      i := i + 1;
    }
    assert members[..i] == members;
    if !updated {
      result := result + [MemberRecord(uid, role)];
    }
    r := Some(result);
  }

  lemma {:induction false} ReplacedAt(members: seq<Json>, uid: Json, role: Json, i: nat)
    requires i < |members|
    ensures |Replaced(members, uid, role)| == |members|
    ensures Replaced(members, uid, role)[i] == if Matches(members[i], uid) then MemberRecord(uid, role) else members[i]
    decreases |members|
  {
    if |members| > 1 {
      ReplacedAt(members[..|members| - 1], uid, role, if i < |members| - 1 then i else 0);
    }
  }

  /**
   * The upsert: each matching member is replaced by exactly `{ userId, role }`
   * (other fields such as `email` are dropped), every other member keeps its
   * value and position, and one member is appended at the end iff none matched.
   */
  lemma UpsertSpec(members: seq<Json>, uid: Json, role: Json)
    ensures Upserted(members, uid, role).None? <==> JNull in members
    ensures Upserted(members, uid, role).Some? ==>
      var r := Upserted(members, uid, role).value;
      && |r| == |members| + (if AnyMatch(members, uid) then 0 else 1)
      && (forall i :: 0 <= i < |members| ==>
            r[i] == if Matches(members[i], uid) then MemberRecord(uid, role) else members[i])
      && (!AnyMatch(members, uid) ==> r[|members|] == MemberRecord(uid, role))
  {
    if members == [] {
      assert !AnyMatch(members, uid);
    } else {
      ReplacedAt(members, uid, role, 0);
      forall i | 0 <= i < |members| ensures Replaced(members, uid, role)[i] == if Matches(members[i], uid) then MemberRecord(uid, role) else members[i] {
        ReplacedAt(members, uid, role, i);
      }
    }
  }

  /** Replacing matches that already are the new record changes nothing. */
  lemma {:induction false} ReplacedFixpoint(members: seq<Json>, uid: Json, role: Json)
    requires forall i :: 0 <= i < |members| && Matches(members[i], uid) ==> members[i] == MemberRecord(uid, role)
    ensures Replaced(members, uid, role) == members
    decreases |members|
  {
    if members != [] {
      var n := |members| - 1;
      ReplacedFixpoint(members[..n], uid, role);
      assert members[..n] + [members[n]] == members;
    }
  }

  /** After an upsert with a primitive id, some member matches, no member is null and every match is the new record. */
  lemma UpsertedMatchesAreRecords(members: seq<Json>, uid: Json, role: Json)
    requires IsPrimitive(uid)
    requires Upserted(members, uid, role).Some?
    ensures JNull !in Upserted(members, uid, role).value
    ensures AnyMatch(Upserted(members, uid, role).value, uid)
    ensures forall i :: 0 <= i < |Upserted(members, uid, role).value| && Matches(Upserted(members, uid, role).value[i], uid) ==>
      Upserted(members, uid, role).value[i] == MemberRecord(uid, role)
  {
    var r := Upserted(members, uid, role).value;
    UpsertSpec(members, uid, role);
    assert Matches(MemberRecord(uid, role), uid);
    forall i | 0 <= i < |r| ensures r[i] != JNull && (Matches(r[i], uid) ==> r[i] == MemberRecord(uid, role)) {
      if i < |members| { assert members[i] in members; }
    }
    if AnyMatch(members, uid) {
      var j :| 0 <= j < |members| && Matches(members[j], uid);
      assert Matches(r[j], uid);
    } else {
      assert Matches(r[|members|], uid);
    }
  }

  /** Sharing the same primitive user id and role twice is the same as sharing it once. */
  lemma UpsertIdempotent(members: seq<Json>, uid: Json, role: Json)
    requires IsPrimitive(uid)
    requires Upserted(members, uid, role).Some?
    ensures Upserted(Upserted(members, uid, role).value, uid, role) == Upserted(members, uid, role)
  {
    var r := Upserted(members, uid, role).value;
    UpsertedMatchesAreRecords(members, uid, role);
    ReplacedFixpoint(r, uid, role);
  }

  /** An array or object `userId` never equals a stored one, so such a share always appends. */
  lemma CompoundUserIdAlwaysAppends(members: seq<Json>, uid: Json, role: Json)
    requires !IsPrimitive(uid)
    requires Upserted(members, uid, role).Some?
    ensures Upserted(members, uid, role).value == members + [MemberRecord(uid, role)]
  {
    UpsertSpec(members, uid, role);
    assert !AnyMatch(members, uid);
  }

  /** `Array.isArray(room.members) ? room.members : []` */
  function MembersOf(item: Obj): seq<Json> {
    if "members" in item && item["members"].JArr? then item["members"].items else []
  }

  /** `!memberUserId || !role` fails. */
  predicate ShareRequestValid(body: Obj) {
    "userId" in body && Truthy(body["userId"]) && "role" in body && Truthy(body["role"])
  }

  /** A room whose `members` is missing or not an array is shared as a fresh one-member list. */
  lemma ShareOnNonArrayMembers(item: Obj, uid: Json, role: Json)
    requires !("members" in item && item["members"].JArr?)
    ensures Upserted(MembersOf(item), uid, role) == Some([MemberRecord(uid, role)])
  {
    assert MembersOf(item) == [];
    assert JNull !in MembersOf(item) && !AnyMatch([], uid);
    assert Replaced([], uid, role) + [MemberRecord(uid, role)] == [MemberRecord(uid, role)];
  }

  /** The share proceeds exactly when both `userId` and `role` are present and neither is a falsy value. */
  lemma ShareRequestChecks(body: Obj)
    ensures ShareRequestValid(body) <==>
      "userId" in body && body["userId"] !in FalsyValues && "role" in body && body["role"] !in FalsyValues
  {
    if "userId" in body {
      TruthyIff(body["userId"]);
    }
    if "role" in body {
      TruthyIff(body["role"]);
    }
  }

  /** The single-term update `SET members = :members`. */
  function MembersUpdate(ms: seq<Json>): SetParams {
    SetParams([SetTerm("members", ":members")], map[":members" := JArr(ms)], map[])
  }

  // ---------------------------------------------------------------------
  // The handlers over both tiers

  /** The shape every guest record written through these handlers keeps. */
  ghost predicate GuestShaped(key: string, rec: Obj) {
    && |KeyPrefix| <= |key| && key[..|KeyPrefix|] == KeyPrefix
    && "id" in rec && rec["id"] == JStr(key[|KeyPrefix|..])
    && "owner" in rec && rec["owner"] == JStr(AnonymousOwner)
    && "members" in rec && rec["members"] == OwnerMembers(AnonymousOwner)
    && "isGuestRoom" in rec && rec["isGuestRoom"] == JBool(true)
    && ExpiresAt(rec).Some?
  }

  /** The update object only ever holds allow-listed keys. */
  lemma FilteredKeys(body: Obj)
    ensures ToObj(FilteredUpdates(body)).Keys <= {"name", "language", "type", "content"}
  {
    AllowedEntriesAsObj(body, AllowedFields);
  }

  /** An update restricted to allowed fields leaves a guest record's identity, owner, members and expiry alone. */
  lemma AllowedUpdateKeepsGuestShape(key: string, rec: Obj, body: Obj)
    requires GuestShaped(key, rec)
    ensures GuestShaped(key, Merge(rec, ToObj(FilteredUpdates(body))))
    ensures ExpiresAt(Merge(rec, ToObj(FilteredUpdates(body)))) == ExpiresAt(rec)
  {
    var u := ToObj(FilteredUpdates(body));
    FilteredKeys(body);
    assert "id" !in u && "owner" !in u && "members" !in u && "isGuestRoom" !in u && "expiresAt" !in u;
    var m := Merge(rec, u);
    assert m["id"] == rec["id"] && m["owner"] == rec["owner"] && m["members"] == rec["members"];
    assert m["isGuestRoom"] == rec["isGuestRoom"] && m["expiresAt"] == rec["expiresAt"];
  }

  /** A freshly created guest record has the guest shape under its key. */
  lemma GuestRoomRecordShaped(body: Obj, id: string, name: string, createdAt: string, now: int)
    ensures GuestShaped(KeyOf(id), GuestRoomRecord(body, id, name, createdAt, now))
  {
    GuestRoomRecordFields(body, id, name, createdAt, now);
    assert KeyOf(id)[|KeyPrefix|..] == id;
  }

  /** The share write `SET members = :members` assigns exactly the new list. */
  lemma MembersUpdateEvaluates(ms: seq<Json>)
    ensures Evaluate(MembersUpdate(ms)) == Some([("members", JArr(ms))])
    ensures ToObj([("members", JArr(ms))]) == map["members" := JArr(ms)]
  {
    var p := MembersUpdate(ms);
    assert EvalTerm(p.terms[0], p.values, p.names) == Some(("members", JArr(ms)));
    EvalTermsPointwise(p.terms, p.values, p.names, [("members", JArr(ms))]);
  }

  ghost predicate AllGuestShaped(entries: map<string, Entry>) {
    forall key :: key in entries ==> GuestShaped(key, entries[key].value)
  }

  lemma StoreShaped(entries: map<string, Entry>, key: string, e: Entry)
    requires AllGuestShaped(entries) && GuestShaped(key, e.value)
    ensures AllGuestShaped(entries[key := e])
  {
  }

  /** Storing a freshly created guest record keeps every guest record shaped. */
  lemma CreateKeepsShaped(entries: map<string, Entry>, body: Obj, id: string, name: string, createdAt: string, now: int)
    requires AllGuestShaped(entries)
    ensures AllGuestShaped(entries[KeyOf(id) := Entry(GuestRoomRecord(body, id, name, createdAt, now), now + GuestRoomTtlSeconds * 1000)])
  {
    GuestRoomRecordShaped(body, id, name, createdAt, now);
    StoreShaped(entries, KeyOf(id), Entry(GuestRoomRecord(body, id, name, createdAt, now), now + GuestRoomTtlSeconds * 1000));
  }

  /** Re-storing a guest record merged with a filtered update keeps every guest record shaped, whatever the new expiry. */
  lemma UpdateKeepsShaped(entries: map<string, Entry>, key: string, body: Obj)
    requires AllGuestShaped(entries) && key in entries
    ensures ExpiresAt(entries[key].value).Some?
    ensures forall expiry: int {:trigger Entry(Merge(entries[key].value, ToObj(FilteredUpdates(body))), expiry)} ::
      AllGuestShaped(entries[key := Entry(Merge(entries[key].value, ToObj(FilteredUpdates(body))), expiry)])
  {
    AllowedUpdateKeepsGuestShape(key, entries[key].value, body);
    forall expiry: int ensures AllGuestShaped(entries[key := Entry(Merge(entries[key].value, ToObj(FilteredUpdates(body))), expiry)]) {
      StoreShaped(entries, key, Entry(Merge(entries[key].value, ToObj(FilteredUpdates(body))), expiry));
    }
  }

  /** The durable update's expression performs exactly the filtered updates of the body. */
  lemma FilteredUpdatesEvaluate(body: Obj)
    ensures Evaluate(SetParamsFor(FilteredUpdates(body))) == Some(FilteredUpdates(body))
  {
    FilteredUpdatesWellFormed(body);
    SetParamsRoundTrip(FilteredUpdates(body));
  }

  class RoomService {
    const guest: GuestRoomStore
    const table: RoomTable

    ghost predicate Valid()
      reads guest
    {
      AllGuestShaped(guest.entries)
    }

    constructor ()
      ensures Valid() && fresh(guest) && fresh(table)
      ensures guest.entries == map[] && table.items == map[]
    {
      guest := new GuestRoomStore();
      table := new RoomTable();
    }

    /** `POST /rooms` */
    method CreateRoom(h: Headers, body: Obj, id: string, name: string, createdAt: string, now: int) returns (reply: Reply)
      requires Valid()
      modifies guest, table
      ensures Valid()
      ensures IsGuestCaller(h) ==>
        var room := GuestRoomRecord(body, id, name, createdAt, now);
        && reply == Ok(201, JObj(room))
        && guest.entries == old(guest.entries)[KeyOf(id) := Entry(room, now + GuestRoomTtlSeconds * 1000)]
        && table.items == old(table.items)
      ensures !IsGuestCaller(h) ==>
        var item := NewRoomRecord(body, id, name, createdAt, h.userId.value);
        && reply == Ok(201, JObj(item))
        && table.items == old(table.items)[id := item]
        && guest.entries == old(guest.entries)
    {
      if IsGuestCaller(h) {
        CreateKeepsShaped(guest.entries, body, id, name, createdAt, now);
        var room := guest.CreateGuestRoom(body, id, name, createdAt, now);
        reply := Ok(201, JObj(room));
      } else {
        var item := NewRoomRecord(body, id, name, createdAt, h.userId.value);
        table.Put(id, item);
        reply := Ok(201, JObj(item));
      }
    }

    /** `GET /rooms/:id`: a lookup in the caller's tier only. */
    method GetRoom(h: Headers, id: string, now: int) returns (reply: Reply)
      ensures IsGuestCaller(h) ==>
        reply == if guest.Live(KeyOf(id), now) then Ok(200, JObj(guest.entries[KeyOf(id)].value))
                 else NotFound("Room not found or expired")
      ensures !IsGuestCaller(h) ==>
        reply == if id in table.items then Ok(200, JObj(table.items[id])) else NotFound("Room not found")
    {
      if IsGuestCaller(h) {
        var room := guest.GetGuestRoom(id, now);
        if room.None? {
          return NotFound("Room not found or expired");
        }
        reply := Ok(200, JObj(room.value));
      } else {
        var item := table.Get(id);
        if item.None? {
          return NotFound("Room not found");
        }
        reply := Ok(200, JObj(item.value));
      }
    }

    /** The guest branch of `PATCH /rooms/:id`. */
    method UpdateGuestTier(id: string, body: Obj, now: int) returns (reply: Reply)
      requires Valid()
      modifies guest
      ensures Valid()
      ensures !old(guest.Live(KeyOf(id), now)) ==>
        reply == NotFound("Guest room not found or expired") && guest.entries == old(guest.entries)
      ensures old(guest.Live(KeyOf(id), now)) && |FilteredUpdates(body)| == 0 ==>
        reply == BadRequest("No updatable fields provided.") && guest.entries == old(guest.entries)
      ensures old(guest.Live(KeyOf(id), now)) && |FilteredUpdates(body)| > 0 ==>
        var room := old(guest.entries[KeyOf(id)].value);
        var updated := Merge(room, ToObj(FilteredUpdates(body)));
        && reply == Ok(200, JObj(updated))
        && guest.entries == old(guest.entries)[KeyOf(id) := Entry(updated, now + RestoreTtl(ExpiresAt(room).value, now) * 1000)]
    {
      var room := guest.GetGuestRoom(id, now);
      if room.None? {
        return NotFound("Guest room not found or expired");
      }
      var updates := FilterUpdates(body);
      if |updates| == 0 {
        return BadRequest("No updatable fields provided.");
      }
      UpdateKeepsShaped(guest.entries, KeyOf(id), body);
      var result := guest.UpdateGuestRoom(id, ToObj(updates), now);
      match result {
        case Updated(r) => reply := Ok(200, JObj(r));
        case NoRoom => reply := Ok(200, JNull);
        case Rejected => reply := ServerError;
      }
    }

    /** The durable branch of `PATCH /rooms/:id`. */
    method UpdateDurableTier(id: string, body: Obj) returns (reply: Reply)
      modifies table
      ensures |FilteredUpdates(body)| == 0 ==>
        reply == BadRequest("No updatable fields provided.") && table.items == old(table.items)
      ensures |FilteredUpdates(body)| > 0 ==>
        var item := UpdateBase(old(table.items), id) + ToObj(FilteredUpdates(body));
        && reply == Ok(200, JObj(item))
        && table.items == old(table.items)[id := item]
    {
      var updates := FilterUpdates(body);
      if |updates| == 0 {
        return BadRequest("No updatable fields provided.");
      }
      var params := BuildSetExpression(updates);
      FilteredUpdatesEvaluate(body);
      var attrs := table.Update(id, params);
      reply := Ok(200, JObj(attrs.value));
    }

    /**
     * `PATCH /rooms/:id`. The guest path checks that the room exists before
     * filtering; the durable path filters and writes without an existence read.
     */
    method UpdateRoom(h: Headers, id: string, body: Obj, now: int) returns (reply: Reply)
      requires Valid()
      modifies guest, table
      ensures Valid()
      ensures IsGuestCaller(h) && !old(guest.Live(KeyOf(id), now)) ==>
        reply == NotFound("Guest room not found or expired")
        && guest.entries == old(guest.entries) && table.items == old(table.items)
      ensures (IsGuestCaller(h) ==> old(guest.Live(KeyOf(id), now))) && |FilteredUpdates(body)| == 0 ==>
        reply == BadRequest("No updatable fields provided.")
        && guest.entries == old(guest.entries) && table.items == old(table.items)
      ensures IsGuestCaller(h) && old(guest.Live(KeyOf(id), now)) && |FilteredUpdates(body)| > 0 ==>
        var room := old(guest.entries[KeyOf(id)].value);
        var updated := Merge(room, ToObj(FilteredUpdates(body)));
        && reply == Ok(200, JObj(updated))
        && guest.entries == old(guest.entries)[KeyOf(id) := Entry(updated, now + RestoreTtl(ExpiresAt(room).value, now) * 1000)]
        && table.items == old(table.items)
      ensures !IsGuestCaller(h) && |FilteredUpdates(body)| > 0 ==>
        var item := UpdateBase(old(table.items), id) + ToObj(FilteredUpdates(body));
        && reply == Ok(200, JObj(item))
        && table.items == old(table.items)[id := item]
        && guest.entries == old(guest.entries)
    {
      if IsGuestCaller(h) {
        reply := UpdateGuestTier(id, body, now);
      } else {
        reply := UpdateDurableTier(id, body);
      }
    }

    /** `PATCH /rooms/:id/share`: durable rooms only, upserting one member by `userId`. */
    method ShareRoom(h: Headers, id: string, body: Obj) returns (reply: Reply)
      modifies table
      ensures IsGuestCaller(h) ==>
        reply == Forbidden("Guest room sharing not supported") && table.items == old(table.items)
      ensures !IsGuestCaller(h) && !ShareRequestValid(body) ==>
        reply == BadRequest("userId and role are required") && table.items == old(table.items)
      ensures !IsGuestCaller(h) && ShareRequestValid(body) && id !in old(table.items) ==>
        reply == NotFound("Room not found") && table.items == old(table.items)
      ensures !IsGuestCaller(h) && ShareRequestValid(body) && id in old(table.items) ==>
        var ms := Upserted(MembersOf(old(table.items)[id]), body["userId"], body["role"]);
        && (ms.None? ==> reply == ServerError && table.items == old(table.items))
        && (ms.Some? ==>
              && table.items == old(table.items)[id := old(table.items)[id]["members" := JArr(ms.value)]]
              && reply == Ok(200, JObj(map["success" := JBool(true), "members" := JArr(ms.value)])))
    {
      if IsGuestCaller(h) {
        return Forbidden("Guest room sharing not supported");
      }
      var memberUserId := Get(body, "userId");
      var role := Get(body, "role");
      if memberUserId.None? || !Truthy(memberUserId.value) || role.None? || !Truthy(role.value) {
        return BadRequest("userId and role are required");
      }
      var item := table.Get(id);
      if item.None? {
        return NotFound("Room not found");
      }
      var members := UpsertMember(MembersOf(item.value), memberUserId.value, role.value);
      if members.None? {
        return ServerError;
      }
      MembersUpdateEvaluates(members.value);
      var attrs := table.Update(id, MembersUpdate(members.value));
      assert table.items[id] == item.value["members" := JArr(members.value)];
      reply := Ok(200, JObj(map["success" := JBool(true), "members" := JArr(members.value)]));
    }
  }
}

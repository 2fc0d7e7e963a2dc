/**
 * The room record both storage tiers build on create: the caller's body
 * spread first, then the generated and defaulted fields on top of it.
 */
module RoomRecords {
  import opened Json

  const DefaultLanguage: string := "javascript"
  const DefaultType: string := "public"
  const OwnerRole: string := "owner"

  /** Keys a create always writes, whatever the caller sent. */
  const CreateKeys: set<string> := {"id", "name", "language", "content", "createdAt", "owner", "type", "members"}

  /** `{ userId, role }` as pushed into a room's `members` list. */
  function MemberRecord(userId: Json, role: Json): Json {
    JObj(map["userId" := userId, "role" := role])
  }

  /** The single-owner member list a new room starts with. */
  function OwnerMembers(owner: string): Json {
    JArr([MemberRecord(JStr(owner), JStr(OwnerRole))])
  }

  /**
   * `{ ...body, id, name, language, content, createdAt, owner, type, members }`
   * with `language`, `content` and `type` defaulted through `||`.
   */
  function NewRoomRecord(body: Obj, id: string, name: string, createdAt: string, owner: string): Obj {
    body + map[
      "id" := JStr(id),
      "name" := JStr(name),
      "language" := OrDefault(body, "language", JStr(DefaultLanguage)),
      "content" := OrDefault(body, "content", JStr("")),
      "createdAt" := JStr(createdAt),
      "owner" := JStr(owner),
      "type" := OrDefault(body, "type", JStr(DefaultType)),
      "members" := OwnerMembers(owner)
    ]
  }

  /**
   * The new record holds the body's keys and the generated ones. The
   * generated fields win over the body's, the three defaulted fields fall
   * back exactly when the body's value is absent or falsy, and every other
   * body field is kept.
   */
  lemma NewRoomRecordFields(body: Obj, id: string, name: string, createdAt: string, owner: string)
    ensures NewRoomRecord(body, id, name, createdAt, owner).Keys == body.Keys + CreateKeys
    ensures var r := NewRoomRecord(body, id, name, createdAt, owner);
      && r["id"] == JStr(id) && r["name"] == JStr(name) && r["createdAt"] == JStr(createdAt)
      && r["owner"] == JStr(owner)
      && r["members"] == JArr([JObj(map["userId" := JStr(owner), "role" := JStr("owner")])])
      && r["language"] == (if "language" in body && Truthy(body["language"]) then body["language"] else JStr("javascript"))
      && r["content"] == (if "content" in body && Truthy(body["content"]) then body["content"] else JStr(""))
      && r["type"] == (if "type" in body && Truthy(body["type"]) then body["type"] else JStr("public"))
    ensures forall k :: k in body && k !in CreateKeys ==> NewRoomRecord(body, id, name, createdAt, owner)[k] == body[k]
  {
    var generated := map[
      "id" := JStr(id),
      "name" := JStr(name),
      "language" := OrDefault(body, "language", JStr(DefaultLanguage)),
      "content" := OrDefault(body, "content", JStr("")),
      "createdAt" := JStr(createdAt),
      "owner" := JStr(owner),
      "type" := OrDefault(body, "type", JStr(DefaultType)),
      "members" := OwnerMembers(owner)
    ];
    assert NewRoomRecord(body, id, name, createdAt, owner) == body + generated;
    assert generated.Keys == CreateKeys;
  }
}

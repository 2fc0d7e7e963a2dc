/**
 * The guest-room tier: rooms created by callers without an identity are
 * kept in a key/value store under a per-key expiry. The store is a map from
 * key to (serialised record, expiry instant); every call receives the
 * current instant `now` in milliseconds. A key is live strictly before its
 * expiry instant. Serialisation to and from JSON text is the identity here.
 */
module GuestRooms {
  import opened Json
  import opened RoomRecords

  const GuestRoomTtlSeconds: int := 24 * 60 * 60
  const KeyPrefix: string := "guestroom:"
  const AnonymousOwner: string := "anonymous"

  /** Keys a guest create writes on top of the caller's body. */
  const GuestKeys: set<string> := CreateKeys + {"isGuestRoom", "expiresAt"}

  /** One stored value and the instant (ms) from which the store no longer returns it. */
  datatype Entry = Entry(value: Obj, expiry: int)

  /** What `updateGuestRoom` resolves to: `null`, the merged room, or a rejected store write. */
  datatype UpdateResult = NoRoom | Updated(room: Obj) | Rejected

  /** `guestroom:${id}`; the prefix keeps guest keys apart and the id is recoverable from the key. */
  function KeyOf(id: string): (key: string)
    ensures |key| == |KeyPrefix| + |id|
    ensures key[..|KeyPrefix|] == KeyPrefix && key[|KeyPrefix|..] == id
  {
    KeyPrefix + id
  }

  lemma KeyOfInjective(a: string, b: string)
    requires KeyOf(a) == KeyOf(b)
    ensures a == b
  {
    assert a == KeyOf(a)[|KeyPrefix|..];
  }

  function Max(a: int, b: int): int {
    if a < b then b else a
  }

  /**
   * The record `createGuestRoom` stores and returns: the common room record
   * with owner "anonymous", flagged as a guest room and expiring 24 hours
   * after `now`. The caller's `type` is kept, so a guest room may be private.
   */
  function GuestRoomRecord(body: Obj, id: string, name: string, createdAt: string, now: int): Obj {
    NewRoomRecord(body, id, name, createdAt, AnonymousOwner)["isGuestRoom" := JBool(true)]["expiresAt" := JNum(now + GuestRoomTtlSeconds * 1000)]
  }

  /**
   * The guest record holds the body's keys and the guest keys: owner
   * "anonymous" with the matching member list, the guest flag, an expiry 24
   * hours after `now`, the three defaulted fields, and every other body field.
   */
  lemma GuestRoomRecordFields(body: Obj, id: string, name: string, createdAt: string, now: int)
    ensures GuestRoomRecord(body, id, name, createdAt, now).Keys == body.Keys + GuestKeys
    ensures var r := GuestRoomRecord(body, id, name, createdAt, now);
      && r["id"] == JStr(id) && r["name"] == JStr(name) && r["createdAt"] == JStr(createdAt)
      && r["owner"] == JStr("anonymous")
      && r["members"] == JArr([JObj(map["userId" := JStr("anonymous"), "role" := JStr("owner")])])
      && r["isGuestRoom"] == JBool(true)
      && r["expiresAt"] == JNum(now + 86_400_000)
      && r["language"] == (if "language" in body && Truthy(body["language"]) then body["language"] else JStr("javascript"))
      && r["content"] == (if "content" in body && Truthy(body["content"]) then body["content"] else JStr(""))
      && r["type"] == (if "type" in body && Truthy(body["type"]) then body["type"] else JStr("public"))
    ensures forall k :: k in body && k !in GuestKeys ==> GuestRoomRecord(body, id, name, createdAt, now)[k] == body[k]
  {
    NewRoomRecordFields(body, id, name, createdAt, AnonymousOwner);
    assert "isGuestRoom" !in CreateKeys && "expiresAt" !in CreateKeys;
  }

  /** `{ ...room, ...updates }`: the keys of `updates` are overwritten, every other key is kept. */
  function Merge(room: Obj, updates: Obj): (r: Obj)
    ensures r.Keys == room.Keys + updates.Keys
    ensures forall k :: k in updates ==> r[k] == updates[k]
    ensures forall k :: k in room && k !in updates ==> r[k] == room[k]
  {
    room + updates
  }

  /** The numeric `expiresAt` of a stored record, if it has one. */
  function ExpiresAt(room: Obj): Option<int> {
    if "expiresAt" in room && room["expiresAt"].JNum? then Some(room["expiresAt"].n) else None
  }

  /**
   * The seconds an update re-stores a room for: the whole seconds left until
   * `expiresAt`, clamped to at least one. The new expiry never lies beyond
   * `expiresAt` except by the clamp, and never falls a full second short of it.
   */
  function RestoreTtl(expiresAt: int, now: int): (ttl: int)
    ensures ttl >= 1
    ensures now + ttl * 1000 <= Max(expiresAt, now + 1000)
    ensures expiresAt - now >= 1000 ==> expiresAt - 1000 < now + ttl * 1000 <= expiresAt
    ensures expiresAt - now < 1000 ==> ttl == 1
  {
    var whole := (expiresAt - now) / 1000;
    if whole < 1 then 1 else whole
  }

  class GuestRoomStore {
    var entries: map<string, Entry>

    constructor ()
      ensures entries == map[]
    {
      entries := map[];
    }

    /** The store still returns the value under `key` at instant `now`. */
    predicate Live(key: string, now: int)
      reads this
    {
      key in entries && now < entries[key].expiry
    }

    /** `SET key value EX ttlSeconds`: replaces the value and restarts its expiry. */
    method Set(key: string, value: Obj, ttlSeconds: int, now: int)
      requires ttlSeconds >= 1
      modifies this
      ensures entries == old(entries)[key := Entry(value, now + ttlSeconds * 1000)]
    {
      entries := entries[key := Entry(value, now + ttlSeconds * 1000)];
    }

    /** `GET key`: the last value set, unless it has expired. */
    method Get(key: string, now: int) returns (data: Option<Obj>)
      ensures data.Some? <==> Live(key, now)
      ensures data.Some? ==> data.value == entries[key].value
    {
      if key in entries && now < entries[key].expiry {
        data := Some(entries[key].value);
      } else {
        data := None;
      }
    }

    /** `createGuestRoom(body)` with the generated id, name and timestamp passed in. */
    method CreateGuestRoom(body: Obj, id: string, name: string, createdAt: string, now: int) returns (room: Obj)
      modifies this
      ensures room == GuestRoomRecord(body, id, name, createdAt, now)
      ensures entries == old(entries)[KeyOf(id) := Entry(room, now + GuestRoomTtlSeconds * 1000)]
      ensures room["expiresAt"] == JNum(entries[KeyOf(id)].expiry)
    {
      room := GuestRoomRecord(body, id, name, createdAt, now);
      assert room["expiresAt"] == JNum(now + GuestRoomTtlSeconds * 1000);
      Set(KeyOf(id), room, GuestRoomTtlSeconds, now);
    }

    /** `getGuestRoom(id)`: `None` when the key is absent or expired, otherwise the stored record. */
    method GetGuestRoom(id: string, now: int) returns (room: Option<Obj>)
      ensures room.None? <==> !(KeyOf(id) in entries && now < entries[KeyOf(id)].expiry)
      ensures room.Some? ==> room.value == entries[KeyOf(id)].value
    {
      room := Get(KeyOf(id), now);
    }

    /**
     * `updateGuestRoom(id, updates)`: read, merge, and re-store under the
     * remaining lifetime computed from the stored `expiresAt`. A missing or
     * expired room writes nothing; a record without a numeric `expiresAt`
     * yields a TTL the store refuses.
     */
    method UpdateGuestRoom(id: string, updates: Obj, now: int) returns (r: UpdateResult)
      modifies this
      ensures !old(Live(KeyOf(id), now)) ==> r == NoRoom && entries == old(entries)
      ensures old(Live(KeyOf(id), now)) && ExpiresAt(old(entries[KeyOf(id)].value)).None? ==>
        r == Rejected && entries == old(entries)
      ensures old(Live(KeyOf(id), now)) && ExpiresAt(old(entries[KeyOf(id)].value)).Some? ==>
        var room := old(entries[KeyOf(id)].value);
        var expiresAt := ExpiresAt(room).value;
        && r == Updated(Merge(room, updates))
        && entries == old(entries)[KeyOf(id) := Entry(Merge(room, updates), now + RestoreTtl(expiresAt, now) * 1000)]
        && entries[KeyOf(id)].expiry <= Max(expiresAt, now + 1000)
    {
      var key := KeyOf(id);
      var room := GetGuestRoom(id, now);
      if room.None? {
        return NoRoom;
      }
      var updated := Merge(room.value, updates);
      var expiresAt := ExpiresAt(room.value);
      if expiresAt.None? {
        return Rejected;
      }
      Set(key, updated, RestoreTtl(expiresAt.value, now), now);
      r := Updated(updated);
    }
  }

  /** An update an hour in does not keep a room past the 24 hours fixed at creation. */
  method UpdateDoesNotPostponeExpiry(t0: int)
  {
    var store := new GuestRoomStore();
    var room := store.CreateGuestRoom(map[], "abc123", "Brave Otter", "t0", t0);
    var r := store.UpdateGuestRoom("abc123", map["content" := JStr("x")], t0 + 3_600_000);
    assert r.Updated?;
    var late := store.GetGuestRoom("abc123", t0 + 86_400_000 + 1);
    assert late.None?;
  }

  /**
   * The clamp to one second lets an update made in the last second keep a
   * room readable after its `expiresAt`.
   */
  method LastSecondUpdateOutlivesExpiresAt(t0: int)
  {
    var store := new GuestRoomStore();
    var room := store.CreateGuestRoom(map[], "abc123", "Brave Otter", "t0", t0);
    var r := store.UpdateGuestRoom("abc123", map["content" := JStr("x")], t0 + 86_399_500);
    assert r.Updated?;
    var late := store.GetGuestRoom("abc123", t0 + 86_400_200);
    assert late.Some? && late.value["expiresAt"] == JNum(t0 + 86_400_000);
  }
}

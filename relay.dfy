/**
 * The realtime relay: each connection may join room groups, and every event
 * it sends is delivered to the other members of the named group. The hub
 * keeps the group registry and an outbox of emissions, each emission naming
 * its recipients. The relay has no access to either room store.
 */
module RoomRelay {
  import opened Json

  type ConnId = string
  type RoomId = string

  const GuestIdentity: string := "Guest"

  /** A connected socket and the identity fixed at connection time. */
  datatype Connection = Connection(id: ConnId, userEmail: string)

  /** The three events the handlers emit. */
  datatype Event =
    | UserJoined(userEmail: string)
    | CodeUpdate(code: Json, from: string)
    | LanguageUpdate(language: Json, from: string)

  /** One `socket.to(room).emit(...)`: the event and the connections it reaches. */
  datatype Emission = Emission(room: RoomId, recipients: set<ConnId>, event: Event)

  /** A connection's identity: its `x-user-email` handshake header, or "Guest" when that is missing or empty. */
  function Connect(id: ConnId, emailHeader: Option<string>): (c: Connection)
    ensures c.id == id
    ensures emailHeader.Some? && emailHeader.value != "" ==> c.userEmail == emailHeader.value
    ensures emailHeader.None? || emailHeader.value == "" ==> c.userEmail == GuestIdentity
  {
    Connection(id, if emailHeader.Some? && emailHeader.value != "" then emailHeader.value else GuestIdentity)
  }

  /** The members of a room's group; a room nobody joined has none. */
  function Members(groups: map<RoomId, set<ConnId>>, room: RoomId): set<ConnId> {
    if room in groups then groups[room] else {}
  }

  /** The rooms a connection has joined. */
  function RoomsOf(groups: map<RoomId, set<ConnId>>, c: ConnId): set<RoomId> {
    set r | r in groups && c in groups[r]
  }

  /** The registry after `socket.join(room)`. */
  function Joined(groups: map<RoomId, set<ConnId>>, room: RoomId, c: ConnId): map<RoomId, set<ConnId>> {
    groups[room := Members(groups, room) + {c}]
  }

  /**
   * `socket.join` adds the connection to exactly one room and removes it
   * from none; nobody else's memberships change.
   */
  lemma JoinedRooms(groups: map<RoomId, set<ConnId>>, room: RoomId, c: ConnId, x: ConnId)
    ensures RoomsOf(Joined(groups, room, c), x) == RoomsOf(groups, x) + (if x == c then {room} else {})
    ensures Members(Joined(groups, room, c), room) == Members(groups, room) + {c}
    ensures forall r :: r != room ==> Members(Joined(groups, room, c), r) == Members(groups, r)
  {
    var g := Joined(groups, room, c);
    forall r | r in RoomsOf(g, x) ensures r in RoomsOf(groups, x) || (x == c && r == room) {
      if r != room {
        assert r in groups && g[r] == groups[r];
      }
    }
    forall r | r in RoomsOf(groups, x) ensures r in RoomsOf(g, x) {
      assert r in g;
    }
  }

  /** Joining a room already joined changes no membership. */
  lemma RejoinKeepsGroups(groups: map<RoomId, set<ConnId>>, room: RoomId, c: ConnId)
    requires c in Members(groups, room)
    ensures Joined(groups, room, c) == groups
  {
    assert Members(groups, room) + {c} == Members(groups, room);
  }

  /** What `socket.to(room)` reaches: every member of the group except the sender. */
  function Others(groups: map<RoomId, set<ConnId>>, room: RoomId, sender: ConnId): (rs: set<ConnId>)
    ensures sender !in rs
    ensures forall x :: x in rs <==> x in Members(groups, room) && x != sender
  {
    Members(groups, room) - {sender}
  }

  /** The events a connection has been sent, in emission order. */
  function Received(outbox: seq<Emission>, c: ConnId): seq<Event>
    decreases |outbox|
  {
    if outbox == [] then []
    else (if c in outbox[0].recipients then [outbox[0].event] else []) + Received(outbox[1..], c)
  }

  /** A new emission adds its event to what exactly its recipients have received. */
  lemma {:induction false} ReceivedSnoc(outbox: seq<Emission>, e: Emission, c: ConnId)
    ensures Received(outbox + [e], c) == Received(outbox, c) + (if c in e.recipients then [e.event] else [])
    decreases |outbox|
  {
    if outbox == [] {
      assert outbox + [e] == [e] && [e][1..] == [];
    } else {
      var head, rest := outbox[0], outbox[1..];
      var whole := outbox + [e];
      assert whole[0] == head && whole[1..] == rest + [e];
      ReceivedSnoc(rest, e, c);
      var mine := if c in head.recipients then [head.event] else [];
      assert Received(whole, c) == mine + Received(rest + [e], c);
      assert Received(outbox, c) == mine + Received(rest, c);
    }
  }

  class RoomHub {
    var groups: map<RoomId, set<ConnId>>
    var outbox: seq<Emission>

    constructor ()
      ensures groups == map[] && outbox == []
    {
      groups := map[];
      outbox := [];
    }

    /** `join-room`: join the group, then tell the rest of the group who joined. */
    method JoinRoom(c: Connection, room: RoomId)
      modifies this
      ensures groups == Joined(old(groups), room, c.id)
      ensures outbox == old(outbox) + [Emission(room, Others(groups, room, c.id), UserJoined(c.userEmail))]
      ensures Others(groups, room, c.id) == Others(old(groups), room, c.id)
    {
      groups := groups[room := Members(groups, room) + {c.id}];
      outbox := outbox + [Emission(room, Members(groups, room) - {c.id}, UserJoined(c.userEmail))];
    }

    /** `code-change`: relay the code to the rest of the group; the sender need not be a member. */
    method CodeChange(c: Connection, room: RoomId, code: Json)
      modifies this
      ensures groups == old(groups)
      ensures outbox == old(outbox) + [Emission(room, Others(groups, room, c.id), CodeUpdate(code, c.userEmail))]
    {
      outbox := outbox + [Emission(room, Members(groups, room) - {c.id}, CodeUpdate(code, c.userEmail))];
    }

    /** `language-change`: relay the language to the rest of the group. */
    method LanguageChange(c: Connection, room: RoomId, language: Json)
      modifies this
      ensures groups == old(groups)
      ensures outbox == old(outbox) + [Emission(room, Others(groups, room, c.id), LanguageUpdate(language, c.userEmail))]
    {
      outbox := outbox + [Emission(room, Members(groups, room) - {c.id}, LanguageUpdate(language, c.userEmail))];
    }
  }

  /**
   * Two connections share a room: the first hears the second join, the
   * second hears the first's edit, and nobody hears their own events. A
   * repeated join keeps one membership but announces the joiner again.
   */
  method TwoEditorsScenario(code: Json)
  {
    var hub := new RoomHub();
    var a := Connect("sa", Some("ann@example.com"));
    var b := Connect("sb", None);
    hub.JoinRoom(a, "r1");
    hub.JoinRoom(b, "r1");
    hub.CodeChange(a, "r1", code);
    ghost var ob := hub.outbox;
    assert ob[..2][..1] == ob[..1] && ob[..3][..2] == ob[..2] && ob[..3] == ob;
    ReceivedSnoc(ob[..0], ob[0], "sa");
    ReceivedSnoc(ob[..1], ob[1], "sa");
    ReceivedSnoc(ob[..2], ob[2], "sa");
    ReceivedSnoc(ob[..0], ob[0], "sb");
    ReceivedSnoc(ob[..1], ob[1], "sb");
    ReceivedSnoc(ob[..2], ob[2], "sb");
    assert Received(hub.outbox, "sa") == [UserJoined("Guest")];
    assert Received(hub.outbox, "sb") == [CodeUpdate(code, "ann@example.com")];
    hub.JoinRoom(b, "r1");
    assert hub.groups["r1"] == {"sa", "sb"};
    assert hub.outbox[3] == Emission("r1", {"sa"}, UserJoined("Guest"));
  }
}

/**
 * Client runs of the gateway and the groups route, each starting from a
 * fresh store. They show what callers can conclude from the contracts alone.
 */
module Scenarios {
  import opened Wrappers
  import opened JsValue
  import opened Records
  import opened Gateway
  import opened GroupsRoute

  /** A store with group g1, whose members are u1 and u2. */
  method StoreWithGroup() returns (db: Db)
    ensures fresh(db) && db.Valid()
    ensures db.groups == [Group("g1", "General", "u1", 0)]
    ensures db.members == {Membership("u1", "g1"), Membership("u2", "g1")}
    ensures db.messages == []
  {
    db := new Db();
    db.groups := [Group("g1", "General", "u1", 0)];
    db.members := {Membership("u1", "g1"), Membership("u2", "g1")};
  }

  /** Users u1, u2 and u3 connect with valid sessions to a gateway over that store. */
  method ThreeUsersConnect() returns (gw: Gateway, s1: SocketId, s2: SocketId, s3: SocketId)
    ensures fresh(gw) && fresh(gw.db) && gw.Valid()
    ensures gw.db.groups == [Group("g1", "General", "u1", 0)] && gw.db.messages == []
    ensures gw.db.members == {Membership("u1", "g1"), Membership("u2", "g1")}
    ensures s1 in gw.sockets && gw.sockets[s1] == User("u1", "u1@example.org", None)
    ensures s2 in gw.sockets && gw.sockets[s2] == User("u2", "u2@example.org", None)
    ensures s3 in gw.sockets && gw.sockets[s3] == User("u3", "u3@example.org", None)
    ensures s1 != s2 && s3 != s1 && s3 != s2 && gw.rooms == map[]
    ensures gw.Delivered(s1) == [] && gw.Delivered(s2) == [] && gw.Delivered(s3) == []
  {
    var db := StoreWithGroup();
    gw := new Gateway(db);
    var c1 := gw.Connect(Found(Session(Some(User("u1", "u1@example.org", None)))));
    var c2 := gw.Connect(Found(Session(Some(User("u2", "u2@example.org", None)))));
    var c3 := gw.Connect(Found(Session(Some(User("u3", "u3@example.org", None)))));
    s1, s2, s3 := c1.value, c2.value, c3.value;
  }

  /**
   * Members u1 and u2 join g1 and u3, not a member, tries to: the room then
   * holds exactly the two members' sockets, and nobody has been pushed
   * anything yet.
   */
  method ThreeUsersJoin() returns (gw: Gateway, s1: SocketId, s2: SocketId, s3: SocketId)
    ensures fresh(gw) && fresh(gw.db) && gw.Valid()
    ensures gw.db.groups == [Group("g1", "General", "u1", 0)] && gw.db.messages == []
    ensures s1 in gw.sockets && gw.sockets[s1] == User("u1", "u1@example.org", None)
    ensures s3 in gw.sockets && gw.sockets[s3] == User("u3", "u3@example.org", None)
    ensures RoomOf(gw.rooms, "g1") == {s1, s2} && s3 != s1 && s3 != s2
    ensures gw.Delivered(s1) == [] && gw.Delivered(s2) == [] && gw.Delivered(s3) == []
  {
    gw, s1, s2, s3 := ThreeUsersConnect();
    gw.JoinGroup(s1, "g1");
    assert RoomOf(gw.rooms, "g1") == {s1};
    gw.JoinGroup(s2, "g1");
    assert RoomOf(gw.rooms, "g1") == {s1, s2};
    gw.JoinGroup(s3, "g1");
  }

  /**
   * After the joins above, u1 sends "hello": both members' sockets are pushed
   * that one message with u1 as author, and u3's socket is pushed nothing.
   */
  method HelloReachesTheRoomOnly() returns (toU1: seq<Message>, toU2: seq<Message>, toU3: seq<Message>)
    ensures |toU1| == 1 && toU2 == toU1
    ensures toU1[0].content == "hello" && toU1[0].authorId == "u1" && toU1[0].groupId == "g1"
    ensures toU3 == []
  {
    var gw, s1, s2, s3 := ThreeUsersJoin();
    var m := Message("m1", "g1", "u1", "hello", 1, gw.sockets[s1]);
    assert Persist(gw.db.messages, gw.db.groups, gw.sockets[s1], Str("g1"), Str("hello"), Stored("m1", 1)) == Some(m);
    gw.SendMessage(s1, Str("g1"), Str("hello"), Stored("m1", 1));
    toU1, toU2, toU3 := gw.Delivered(s1), gw.Delivered(s2), gw.Delivered(s3);
  }

  /**
   * u3, who is not a member of g1 and so was never let into its room, sends
   * to g1 anyway: `send_message` checks neither rooms nor memberships, so the
   * message is persisted and pushed to the two members, and not to u3.
   */
  method OutsiderCanStillPostToTheRoom() returns (inRoom: bool, toMember: seq<Message>, toOutsider: seq<Message>)
    ensures !inRoom
    ensures |toMember| == 1 && toMember[0].authorId == "u3" && toOutsider == []
  {
    var gw, s1, s2, s3 := ThreeUsersJoin();
    inRoom := s3 in RoomOf(gw.rooms, "g1");
    var m := Message("m1", "g1", "u3", "hi", 1, gw.sockets[s3]);
    assert Persist(gw.db.messages, gw.db.groups, gw.sockets[s3], Str("g1"), Str("hi"), Stored("m1", 1)) == Some(m);
    gw.SendMessage(s3, Str("g1"), Str("hi"), Stored("m1", 1));
    toMember, toOutsider := gw.Delivered(s1), gw.Delivered(s3);
  }

  /** A socket that joined two rooms is in neither once it disconnects. */
  method DisconnectLeavesEveryRoom() returns (inG1: bool, inG2: bool)
    ensures !inG1 && !inG2
  {
    var db := new Db();
    db.groups := [Group("g1", "General", "u1", 0), Group("g2", "Random", "u1", 1)];
    db.members := {Membership("u1", "g1"), Membership("u1", "g2")};
    var gw := new Gateway(db);
    var c := gw.Connect(Found(Session(Some(User("u1", "u1@example.org", None)))));
    var s := c.value;
    gw.JoinGroup(s, "g1");
    gw.JoinGroup(s, "g2");
    gw.Disconnect(s);
    inG1, inG2 := s in RoomOf(gw.rooms, "g1"), s in RoomOf(gw.rooms, "g2");
  }

  /**
   * A group admin creates a group through the route; the owner membership the
   * route inserts is what lets the admin's socket into the new room.
   */
  method CreatedGroupAdmitsItsOwner() returns (status: int, inRoom: bool)
    ensures status == 201 && inRoom
  {
    var db := new Db();
    var gw := new Gateway(db);
    var admin := User("a1", "a1@example.org", Some("GroupAdmin"));
    var c := gw.Connect(Found(Session(Some(admin))));
    var s := c.value;
    var body := Obj(map["name" := Str("Team")]);
    var resp := Create(db, Found(Session(Some(admin))), Parsed(body), Inserted("g9", 7));
    status := resp.status;
    gw.JoinGroup(s, "g9");
    inRoom := s in RoomOf(gw.rooms, "g9");
  }
}

/**
 * The real-time chat gateway of pages/api/socket.io.ts: an authentication
 * step that admits a connection only with a session that has a user, a
 * `join_group` handler gated on the membership table, a `send_message`
 * handler that screens its payload, persists the message and fans it out to
 * the room, and a `disconnect` handler. The socket.io server is created once
 * per HTTP server.
 *
 * Each handler runs as one atomic step. The store's outcome for a message
 * insert (its id and timestamp, or a failure) is a parameter.
 */
module Gateway {
  import opened Wrappers
  import opened JsValue
  import opened Records

  type SocketId = nat

  type Rooms = map<Id, set<SocketId>>

  // ---------------------------------------------------------------------------
  // Admission

  /** The user the authentication middleware attaches to a connection, if it admits it. */
  function Admit(lookup: SessionLookup): (u: Option<User>)
    ensures u.Some? <==> lookup.Found? && lookup.session.user.Some?
    ensures u.Some? ==> u.value == lookup.session.user.value
  {
    match lookup
    case Found(Session(Some(user))) => Some(user)
    case _ => None
  }

  // ---------------------------------------------------------------------------
  // Rooms

  /** The sockets currently in room `g` (socket.io keeps no entry for an empty room). */
  function RoomOf(rooms: Rooms, g: Id): set<SocketId> {
    if g in rooms then rooms[g] else {}
  }

  /** The room table after socket `s` joins room `g`. */
  function Joined(rooms: Rooms, g: Id, s: SocketId): (r: Rooms)
    ensures RoomOf(r, g) == RoomOf(rooms, g) + {s}
    ensures forall h :: h != g ==> RoomOf(r, h) == RoomOf(rooms, h)
  {
    rooms[g := RoomOf(rooms, g) + {s}]
  }

  /** Rooms are sets: a second join of the same socket to the same room changes nothing. */
  lemma JoinIdempotent(rooms: Rooms, g: Id, s: SocketId)
    ensures Joined(Joined(rooms, g, s), g, s) == Joined(rooms, g, s)
  {
    var once := Joined(rooms, g, s);
    assert RoomOf(once, g) + {s} == RoomOf(once, g);
  }

  // ---------------------------------------------------------------------------
  // Screening and persisting a message

  /**
   * What the `send_message` handler makes of its payload: it returns early on
   * a falsy field; a truthy field that is not a string reaches the store,
   * which refuses it; two strings make a message to insert.
   */
  datatype Screened = Ignored | Refused | Accepted(groupId: Id, content: string)

  function Screen(groupId: Value, content: Value): (v: Screened)
    ensures v.Ignored? <==> !Truthy(content) || !Truthy(groupId)
    ensures v.Accepted? <==> Truthy(content) && Truthy(groupId) && content.Str? && groupId.Str?
    ensures v.Accepted? ==> v.groupId == groupId.s && v.content == content.s
    ensures v.Accepted? ==> v.groupId != [] && v.content != []
  {
    if !Truthy(content) || !Truthy(groupId) then Ignored
    else if content.Str? && groupId.Str? then Accepted(groupId.s, content.s)
    else Refused
  }

  /** The store's answer to one message insert: the id and timestamp it assigns, or an error. */
  datatype StoreOutcome = Stored(id: Id, createdAt: int) | StoreFailed

  /**
   * The message row the store commits for a `send_message` from `author`,
   * if any. Besides an explicit store failure, the insert fails on a
   * duplicate id and on a group id with no group row (a foreign key).
   */
  function Persist(log: seq<Message>, groups: seq<Group>, author: User,
                   groupId: Value, content: Value, outcome: StoreOutcome): (r: Option<Message>)
    ensures r.Some? <==>
      && Screen(groupId, content).Accepted?
      && outcome.Stored?
      && outcome.id !in MessageIds(log)
      && groupId.s in GroupIds(groups)
    ensures r.Some? ==>
      && r.value.id == outcome.id && r.value.id !in MessageIds(log)
      && r.value.createdAt == outcome.createdAt
      && r.value.groupId == groupId.s && r.value.groupId in GroupIds(groups)
      && r.value.content == content.s && r.value.content != []
      && r.value.authorId == author.id && r.value.author == author
  {
    match Screen(groupId, content)
    case Accepted(g, c) =>
      if outcome.Stored? && outcome.id !in MessageIds(log) && g in GroupIds(groups)
      then Some(Message(outcome.id, g, author.id, c, outcome.createdAt, author))
      else None
    case _ => None
  }

  // ---------------------------------------------------------------------------
  // Delivery logs

  /**
   * The messages socket `s` has been pushed, in push order, given the
   * message log and, for each row of it, the sockets `new_message` pushed
   * that row to.
   */
  function Received(log: seq<Message>, audiences: seq<set<SocketId>>, s: SocketId): seq<Message>
    requires |log| == |audiences|
    decreases |log|
  {
    if log == [] then []
    else
      var n := |log| - 1;
      Received(log[..n], audiences[..n], s) + (if s in audiences[n] then [log[n]] else [])
  }

  /** Logging and pushing one more message extends exactly the logs of the sockets it is pushed to. */
  lemma ReceivedAppend(log: seq<Message>, audiences: seq<set<SocketId>>, m: Message, room: set<SocketId>, s: SocketId)
    requires |log| == |audiences|
    ensures Received(log + [m], audiences + [room], s)
         == Received(log, audiences, s) + (if s in room then [m] else [])
  {
    assert (log + [m])[..|log|] == log;
    assert (audiences + [room])[..|log|] == audiences;
  }

  /** A socket that no message was pushed to has received nothing. */
  lemma {:induction false} ReceivedNothing(log: seq<Message>, audiences: seq<set<SocketId>>, s: SocketId)
    requires |log| == |audiences|
    requires forall i :: 0 <= i < |audiences| ==> s !in audiences[i]
    ensures Received(log, audiences, s) == []
  {
    if log != [] {
      var n := |log| - 1;
      ReceivedNothing(log[..n], audiences[..n], s);
    }
  }

  /** `xs` occurs in `ys` in order, possibly with gaps. */
  predicate IsSubsequence<T(==)>(xs: seq<T>, ys: seq<T>)
    decreases |ys|
  {
    if xs == [] then true
    else if ys == [] then false
    else if xs[|xs| - 1] == ys[|ys| - 1] then IsSubsequence(xs[..|xs| - 1], ys[..|ys| - 1])
    else IsSubsequence(xs, ys[..|ys| - 1])
  }

  lemma {:induction false} SubsequenceDropLast<T>(xs: seq<T>, ys: seq<T>)
    requires xs != [] && IsSubsequence(xs, ys)
    ensures IsSubsequence(xs[..|xs| - 1], ys)
    decreases |ys|
  {
    var xs', ys' := xs[..|xs| - 1], ys[..|ys| - 1];
    if xs' != [] {
      if xs[|xs| - 1] == ys[|ys| - 1] {
        if xs'[|xs'| - 1] == ys[|ys| - 1] {
          SubsequenceDropLast(xs', ys');
        }
      } else {
        SubsequenceDropLast(xs, ys');
        if xs'[|xs'| - 1] == ys[|ys| - 1] {
          SubsequenceDropLast(xs', ys');
        }
      }
    }
  }

  /**
   * Every socket is pushed messages in the order they were persisted: its
   * delivery log is a subsequence of the message log. So two sockets in the
   * same room see that room's messages in the same relative order.
   */
  lemma {:induction false} ReceivedInPersistenceOrder(log: seq<Message>, audiences: seq<set<SocketId>>, s: SocketId)
    requires |log| == |audiences|
    ensures IsSubsequence(Received(log, audiences, s), log)
    decreases |log|
  {
    if log != [] {
      var n := |log| - 1;
      var before := Received(log[..n], audiences[..n], s);
      ReceivedInPersistenceOrder(log[..n], audiences[..n], s);
      if s in audiences[n] {
        var r := before + [log[n]];
        assert r[..|r| - 1] == before;
      } else {
        assert Received(log, audiences, s) == before;
        if before != [] && before[|before| - 1] == log[n] {
          SubsequenceDropLast(before, log[..n]);
        }
      }
    }
  }

  // ---------------------------------------------------------------------------
  // The gateway

  /**
   * The socket.io server with its handlers. `sockets` are the live
   * connections with the user attached at admission, `rooms` the room table.
   * `audiences` runs beside the message log: for each row, the sockets
   * `new_message` pushed it to (nobody for rows written before this server
   * existed), so `Delivered(s)` is the delivery log of socket `s`.
   */
  class Gateway {
    const db: Db
    var sockets: map<SocketId, User>
    var rooms: Rooms
    var audiences: seq<set<SocketId>>
    var nextSocket: SocketId

    ghost predicate Valid()
      reads this, db
    {
      && db.Valid()
      && |audiences| == |db.messages|
      && (forall s :: s in sockets ==> s < nextSocket)
      && (forall g :: g in rooms ==> rooms[g] <= sockets.Keys)
      && (forall i, s :: 0 <= i < |audiences| && s in audiences[i] ==> s < nextSocket)
    }

    /** What `new_message` has pushed to socket `s`, in push order. */
    function Delivered(s: SocketId): seq<Message>
      reads this, db
      requires Valid()
    {
      Received(db.messages, audiences, s)
    }

    constructor (db: Db)
      requires db.Valid()
      ensures Valid() && this.db == db
      ensures sockets == map[] && rooms == map[]
      ensures forall s :: Delivered(s) == []
    {
      this.db := db;
      sockets, rooms, nextSocket := map[], map[], 0;
      audiences := seq(|db.messages|, _ => {});
      new;
      forall s ensures Delivered(s) == [] {
        ReceivedNothing(db.messages, audiences, s);
      }
    }

    /**
     * The authentication middleware: a connection whose session lookup finds
     * a session with a user is admitted under a fresh socket id with that
     * user attached; a missing session, a session without a user, or a lookup
     * that throws refuses it and changes nothing.
     */
    method Connect(lookup: SessionLookup) returns (r: Option<SocketId>)
      requires Valid()
      modifies this`sockets, this`nextSocket
      ensures Valid()
      ensures r.Some? <==> Admit(lookup).Some?
      ensures r.None? ==> sockets == old(sockets)
      ensures r.Some? ==>
        && r.value !in old(sockets)
        && sockets == old(sockets)[r.value := Admit(lookup).value]
        && Delivered(r.value) == []
    {
      var user := Admit(lookup);
      if user.None? {
        return None;
      }
      var sid := nextSocket;
      ReceivedNothing(db.messages, audiences, sid);
      sockets := sockets[sid := user.value];
      nextSocket := nextSocket + 1;
      r := Some(sid);
    }

    /**
     * `join_group`: the socket enters room `groupId` exactly when the
     * membership table has a row for its user and that group; otherwise
     * nothing changes. No other room is touched.
     */
    method JoinGroup(sid: SocketId, groupId: Id)
      requires Valid() && sid in sockets
      modifies this`rooms
      ensures Valid()
      ensures Membership(sockets[sid].id, groupId) in db.members ==> rooms == Joined(old(rooms), groupId, sid)
      ensures Membership(sockets[sid].id, groupId) !in db.members ==> rooms == old(rooms)
    {
      var user := sockets[sid];
      if Membership(user.id, groupId) in db.members {
        rooms := Joined(rooms, groupId, sid);
      }
    }

    /**
     * `send_message`: a falsy group id or content returns early; otherwise the
     * store is asked to insert the message with the socket's user as author.
     * When the insert succeeds the row is appended to the log and pushed to
     * exactly the sockets in room `groupId` at that moment, the sender only
     * if it is one of them. When it fails nothing is appended or pushed.
     * Neither the sender's room nor its membership is checked.
     */
    method SendMessage(sid: SocketId, groupId: Value, content: Value, outcome: StoreOutcome)
      requires Valid() && sid in sockets
      modifies this`audiences, db`messages
      ensures Valid()
      ensures
        var p := Persist(old(db.messages), db.groups, sockets[sid], groupId, content, outcome);
        && (p.None? ==> db.messages == old(db.messages) && audiences == old(audiences))
        && (p.Some? ==>
              && db.messages == old(db.messages) + [p.value]
              && audiences == old(audiences) + [RoomOf(rooms, p.value.groupId)])
        && (forall s :: Delivered(s) ==
              old(Delivered(s)) + (if p.Some? && s in RoomOf(rooms, p.value.groupId) then [p.value] else []))
    {
      var p := Persist(db.messages, db.groups, sockets[sid], groupId, content, outcome);
      if p.None? {
        return;
      }
      var m := p.value;
      var room := RoomOf(rooms, m.groupId);
      AppendFreshMessage(db.groups, db.members, db.messages, m);
      forall s ensures Received(db.messages + [m], audiences + [room], s)
                    == Received(db.messages, audiences, s) + (if s in room then [m] else []) {
        ReceivedAppend(db.messages, audiences, m, room, s);
      }
      db.messages := db.messages + [m];
      audiences := audiences + [room];
    }

    /**
     * `disconnect`: the handler itself only logs; socket.io then drops the
     * socket from the live set and from every room. What it was pushed stays
     * in the log.
     */
    method Disconnect(sid: SocketId)
      requires Valid() && sid in sockets
      modifies this`sockets, this`rooms
      ensures Valid()
      ensures sockets == old(sockets) - {sid}
      ensures forall g :: RoomOf(rooms, g) == RoomOf(old(rooms), g) - {sid}
    {
      sockets := sockets - {sid};
      rooms := map g | g in rooms && rooms[g] - {sid} != {} :: rooms[g] - {sid};
    }
  }

  /**
   * The HTTP server the API route runs on. The route handler creates the
   * socket.io server on its first call and stores it on the HTTP server;
   * later calls reuse it.
   */
  class HttpServer {
    const db: Db
    var io: Gateway?

    ghost predicate Valid()
      reads this
    {
      io != null ==> io.db == db
    }

    constructor (db: Db)
      ensures Valid() && this.db == db && io == null
    {
      this.db := db;
      io := null;
    }

    method Handle()
      requires Valid() && (io == null ==> db.Valid())
      modifies this`io
      ensures Valid() && io != null
      ensures old(io) != null ==> io == old(io)
      ensures old(io) == null ==> fresh(io) && io.Valid() && io.sockets == map[] && io.rooms == map[]
    {
      if io == null {
        io := new Gateway(db);
      }
    }
  }
}

/**
 * The rows of the relational store the chat server uses (users, groups,
 * group memberships, messages) and the session the authentication library
 * resolves from request headers. The store itself is the class `Db`, whose
 * tables are fields that the route handlers and the socket gateway update.
 */
module Records {
  import opened Wrappers

  type Id = string

  /** A user row; `role` is the authentication library's free-form role, possibly unset. */
  datatype User = User(id: Id, email: string, role: Option<string>)

  /** A session as returned by the session lookup; its `user` may be missing. */
  datatype Session = Session(user: Option<User>)

  /** What a session lookup from request headers yields: it may throw, find nothing, or find a session. */
  datatype SessionLookup = LookupThrew | NoSession | Found(session: Session)

  datatype Group = Group(id: Id, name: string, ownerId: Id, createdAt: int)

  /** A membership row: user `userId` belongs to group `groupId` (unique per pair). */
  datatype Membership = Membership(userId: Id, groupId: Id)

  /** A message row together with its author row, as the gateway broadcasts it. */
  datatype Message = Message(id: Id, groupId: Id, authorId: Id, content: string, createdAt: int, author: User)

  /** The ids of the rows of a table, each row's id read by `id`. */
  function Ids<T>(rows: seq<T>, id: T -> Id): (ids: set<Id>)
    ensures forall i :: 0 <= i < |rows| ==> id(rows[i]) in ids
    ensures forall x :: x in ids ==> exists i :: 0 <= i < |rows| && id(rows[i]) == x
    decreases |rows|
  {
    if rows == [] then {}
    else Ids(rows[..|rows| - 1], id) + {id(rows[|rows| - 1])}
  }

  /** No two rows of a table share an id. */
  predicate UniqueIds<T>(rows: seq<T>, id: T -> Id) {
    forall i, j :: 0 <= i < j < |rows| ==> id(rows[i]) != id(rows[j])
  }

  function GroupIds(groups: seq<Group>): set<Id> {
    Ids(groups, (g: Group) => g.id)
  }

  function MessageIds(messages: seq<Message>): set<Id> {
    Ids(messages, (m: Message) => m.id)
  }

  predicate UniqueGroupIds(groups: seq<Group>) {
    UniqueIds(groups, (g: Group) => g.id)
  }

  predicate UniqueMessageIds(messages: seq<Message>) {
    UniqueIds(messages, (m: Message) => m.id)
  }

  /**
   * Inserting a group under an id not yet used, together with its owner's
   * membership, keeps the tables valid; that membership is a new row.
   */
  lemma InsertGroupWithOwner(groups: seq<Group>, members: set<Membership>, messages: seq<Message>, g: Group)
    requires TablesValid(groups, members, messages) && g.id !in GroupIds(groups)
    ensures Membership(g.ownerId, g.id) !in members
    ensures TablesValid(groups + [g], members + {Membership(g.ownerId, g.id)}, messages)
    ensures GroupIds(groups + [g]) == GroupIds(groups) + {g.id}
  {
    assert (groups + [g])[..|groups|] == groups;
  }

  /** Appending a message under an id not yet used keeps the tables valid. */
  lemma AppendFreshMessage(groups: seq<Group>, members: set<Membership>, messages: seq<Message>, m: Message)
    requires TablesValid(groups, members, messages) && m.id !in MessageIds(messages)
    ensures TablesValid(groups, members, messages + [m])
    ensures MessageIds(messages + [m]) == MessageIds(messages) + {m.id}
  {
    assert (messages + [m])[..|messages|] == messages;
  }

  /** Primary keys are unique and every membership refers to an existing group. */
  ghost predicate TablesValid(groups: seq<Group>, members: set<Membership>, messages: seq<Message>) {
    && UniqueGroupIds(groups)
    && UniqueMessageIds(messages)
    && (forall m :: m in members ==> m.groupId in GroupIds(groups))
  }

  /** The store's tables. */
  class Db {
    var groups: seq<Group>
    var members: set<Membership>
    var messages: seq<Message>

    ghost predicate Valid()
      reads this
    {
      TablesValid(groups, members, messages)
    }

    constructor ()
      ensures Valid()
      ensures groups == [] && members == {} && messages == []
    {
      groups, members, messages := [], {}, [];
    }
  }
}

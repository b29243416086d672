/**
 * The group collection route of app/api/groups/route.ts. GET lists the
 * groups the session's user belongs to, newest first. POST checks the
 * caller's role, then the requested name, then inserts the group together
 * with the owner's membership. Every exception inside a handler (a session
 * lookup that throws, a missing `session.user`, a body that is not JSON or is
 * `null`, a failing query or insert) ends in the handler's catch-all 500.
 */
module GroupsRoute {
  import opened Wrappers
  import opened JsValue
  import opened Records

  datatype Body = GroupList(groups: seq<Group>) | CreatedGroup(group: Group) | Error(error: string)

  /** An HTTP response: status code and JSON body. */
  datatype Response = Response(status: int, body: Body)

  const Unexpected := Response(500, Error("An unexpected error occurred"))

  // ---------------------------------------------------------------------------
  // GET

  /** Ordered by `createdAt`, newest first (ties in any order). */
  predicate NewestFirst(s: seq<Group>) {
    forall i, j :: 0 <= i < j < |s| ==> s[i].createdAt >= s[j].createdAt
  }

  /** The rows of `groups` that have a membership row for `userId`, in table order. */
  function MemberGroups(groups: seq<Group>, members: set<Membership>, userId: Id): (r: seq<Group>)
    ensures forall g :: multiset(r)[g] == if Membership(userId, g.id) in members then multiset(groups)[g] else 0
  {
    if groups == [] then []
    else
      assert groups == [groups[0]] + groups[1..];
      (if Membership(userId, groups[0].id) in members then [groups[0]] else []) + MemberGroups(groups[1..], members, userId)
  }

  /** `g` put into the newest-first sequence `s` after every row at least as new. */
  function InsertByNewest(g: Group, s: seq<Group>): (r: seq<Group>)
    requires NewestFirst(s)
    ensures NewestFirst(r)
    ensures multiset(r) == multiset(s) + multiset{g}
    ensures |r| == |s| + 1 && (r[0] == g || (s != [] && r[0] == s[0]))
  {
    if s == [] || g.createdAt >= s[0].createdAt then [g] + s
    else
      assert s == [s[0]] + s[1..];
      [s[0]] + InsertByNewest(g, s[1..])
  }

  /** The rows of `s` ordered newest first. */
  function SortByNewest(s: seq<Group>): (r: seq<Group>)
    ensures NewestFirst(r)
    ensures multiset(r) == multiset(s)
  {
    if s == [] then []
    else
      assert s == [s[0]] + s[1..];
      InsertByNewest(s[0], SortByNewest(s[1..]))
  }

  /**
   * GET: no session gives 401; a session gives 200 with exactly the groups
   * that have a membership row for its user (each as often as it occurs in the
   * table), newest first. A lookup or query that throws, or a session without
   * a user, gives 500. Only a 200 carries a group list.
   */
  function List(lookup: SessionLookup, groups: seq<Group>, members: set<Membership>, queryFails: bool): (r: Response)
    ensures lookup.NoSession? ==> r == Response(401, Error("Unauthorized"))
    ensures r.status == 401 <==> lookup.NoSession?
    ensures r.status == 200 <==> lookup.Found? && lookup.session.user.Some? && !queryFails
    ensures !lookup.NoSession? && r.status != 200 ==> r == Unexpected
    ensures r.status != 200 ==> !r.body.GroupList?
    ensures r.status == 200 ==>
      && r.body.GroupList?
      && NewestFirst(r.body.groups)
      && forall g :: multiset(r.body.groups)[g] ==
           if Membership(lookup.session.user.value.id, g.id) in members then multiset(groups)[g] else 0
  {
    match lookup
    case LookupThrew => Unexpected
    case NoSession => Response(401, Error("Unauthorized"))
    case Found(session) =>
      if session.user.None? || queryFails then Unexpected
      else Response(200, GroupList(SortByNewest(MemberGroups(groups, members, session.user.value.id))))
  }

  /** A group in the list is one the user belongs to, and every group the user belongs to is listed. */
  lemma ListedExactlyTheMemberGroups(lookup: SessionLookup, groups: seq<Group>, members: set<Membership>, g: Group)
    requires lookup.Found? && lookup.session.user.Some?
    ensures var r := List(lookup, groups, members, false);
      g in r.body.groups <==> g in groups && Membership(lookup.session.user.value.id, g.id) in members
  {
    var r := List(lookup, groups, members, false);
    assert g in r.body.groups <==> multiset(r.body.groups)[g] > 0;
    assert g in groups <==> multiset(groups)[g] > 0;
  }

  // ---------------------------------------------------------------------------
  // POST

  /** The roles allowed to create groups. */
  predicate MayCreateGroups(user: User) {
    user.role == Some("admin") || user.role == Some("GroupAdmin")
  }

  /** The session belongs to a user allowed to create groups. */
  predicate Authorised(lookup: SessionLookup) {
    lookup.Found? && lookup.session.user.Some? && MayCreateGroups(lookup.session.user.value)
  }

  /** A request body as `request.json()` sees it: not JSON at all, or a JSON value. */
  datatype Request = Unparsable | Parsed(body: Value)

  /** The name check: a string of at least three characters. */
  predicate ValidName(name: Value) {
    name.Str? && |name.s| >= 3
  }

  const Forbidden := Response(403, Error("Unauthorized"))
  const InvalidName := Response(400, Error("Invalid group name."))

  /** What POST does before touching the store: answer at once, or insert a group. */
  datatype Decision = Answer(response: Response) | Insert(ownerId: Id, name: string)

  function Decide(lookup: SessionLookup, request: Request): (d: Decision)
    // the role gate comes first: without a session or the role, 403 whatever the body
    ensures lookup.NoSession? ==> d == Answer(Forbidden)
    ensures lookup.Found? && lookup.session.user.Some? && !MayCreateGroups(lookup.session.user.value) ==> d == Answer(Forbidden)
    // then the name check
    ensures Authorised(lookup) && request.Parsed? && Property(request.body, "name").Some? ==>
      if ValidName(Property(request.body, "name").value)
      then d == Insert(lookup.session.user.value.id, Property(request.body, "name").value.s)
      else d == Answer(InvalidName)
    ensures d.Insert? ==> Authorised(lookup) && |d.name| >= 3 && d.ownerId == lookup.session.user.value.id
    // everything else is an exception caught by the handler
    ensures d == Answer(Unexpected) <==>
      || lookup.LookupThrew?
      || (lookup.Found? && lookup.session.user.None?)
      || (Authorised(lookup) && (request.Unparsable? || Property(request.body, "name").None?))
  {
    match lookup
    case LookupThrew => Answer(Unexpected)
    case NoSession => Answer(Forbidden)
    case Found(Session(None)) => Answer(Unexpected)
    case Found(Session(Some(user))) =>
      if !MayCreateGroups(user) then Answer(Forbidden)
      else if request.Unparsable? then Answer(Unexpected)
      else
        match Property(request.body, "name")
        case None => Answer(Unexpected)
        case Some(name) => if ValidName(name) then Insert(user.id, name.s) else Answer(InvalidName)
  }

  /** The store's answer to the group insert: the id and timestamp it assigns, or an error. */
  datatype InsertOutcome = Inserted(id: Id, createdAt: int) | InsertFailed

  /**
   * POST: when the decision is to insert and the store accepts a fresh id,
   * one group owned by the session's user is appended, together with exactly
   * one new membership (owner, new group), and the answer is 201 with the
   * group. In every other case both tables are unchanged.
   */
  method Create(db: Db, lookup: SessionLookup, request: Request, outcome: InsertOutcome) returns (resp: Response)
    requires db.Valid()
    modifies db`groups, db`members
    ensures db.Valid()
    ensures Decide(lookup, request).Answer? ==> resp == Decide(lookup, request).response
    ensures resp.status == 201 <==>
      Decide(lookup, request).Insert? && outcome.Inserted? && outcome.id !in GroupIds(old(db.groups))
    ensures resp.status == 201 ==>
      var d, g := Decide(lookup, request), Group(outcome.id, Decide(lookup, request).name, Decide(lookup, request).ownerId, outcome.createdAt);
      && resp == Response(201, CreatedGroup(g))
      && db.groups == old(db.groups) + [g]
      && Membership(d.ownerId, g.id) !in old(db.members)
      && db.members == old(db.members) + {Membership(d.ownerId, g.id)}
    ensures resp.status != 201 ==> db.groups == old(db.groups) && db.members == old(db.members)
    ensures Decide(lookup, request).Insert? && resp.status != 201 ==> resp == Unexpected
  {
    var d := Decide(lookup, request);
    if d.Answer? {
      return d.response;
    }
    if outcome.InsertFailed? || outcome.id in GroupIds(db.groups) {
      return Unexpected;
    }
    var g := Group(outcome.id, d.name, d.ownerId, outcome.createdAt);
    InsertGroupWithOwner(db.groups, db.members, db.messages, g);
    db.groups := db.groups + [g];
    db.members := db.members + {Membership(d.ownerId, g.id)};
    resp := Response(201, CreatedGroup(g));
  }
}

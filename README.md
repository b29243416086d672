# Online chat: real-time gateway and group routes, modelled in Dafny

This project models the server-side core of a group chat application built on
Next.js, socket.io, Prisma and better-auth:

- **The socket gateway** (`pages/api/socket.io.ts`). It has four parts:
  - an authentication middleware that admits a connection only when the
    session lookup yields a session with a user;
  - a `join_group` handler that puts the socket into a room only when a
    membership row exists for its user and that group;
  - a `send_message` handler that ignores falsy fields, persists the message
    with the socket's user as author, and pushes it to the sockets in the room;
  - a `disconnect` handler.

  The socket.io server is created once per HTTP server.
- **The group collection route** (`app/api/groups/route.ts`). `GET` lists the
  caller's groups, newest first. `POST` checks the role, then the name, then
  inserts the group together with the owner's membership.

The store is one class, `Records.Db`, with three tables: groups, memberships
and messages. The gateway and the route share it. A scenario shows that a group
created through `POST` lets its owner's socket into the new room.

The gateway is `Gateway.Gateway`. It holds the live sockets with their users
and the room table. It also holds `audiences`, which runs beside the message
log and records, for each row, the sockets `new_message` pushed that row to.
`Delivered(s)` is the delivery log of socket `s`, and its order is the
persistence order. A session lookup, the store's id and timestamp for an
insert, and a store failure are parameters. Each handler is one atomic step.

The model follows the code where an idealised gateway would behave otherwise:
- `send_message` checks neither that the sender joined the room nor that it
  is a member of the group. `Scenarios.OutsiderCanStillPostToTheRoom` shows a
  non-member's message reaching the room.
- Content is not trimmed: only falsy values are dropped.
- A failed send is reported to nobody, the sender included.
- The roles allowed to create groups are `"admin"` and `"GroupAdmin"`.
- The `disconnect` handler only logs. Removing the socket from its rooms is
  socket.io's own teardown, which `Disconnect` models.

## Model

| member | source | states |
|---|---|---|
| `Gateway.Admit` | pages/api/socket.io.ts:25-43 | A connection is admitted exactly when the lookup found a session with a user. The attached user is that session's user. A missing session, a session without a user, or a lookup that throws is refused. |
| `Gateway.Gateway.Connect` | pages/api/socket.io.ts:25-43 | Admitted: a fresh socket id gets the session's user, no other socket's user changes, and the new socket has been pushed nothing. Refused: the live sockets are unchanged. |
| `Gateway.Gateway.constructor` | pages/api/socket.io.ts:19-22 | A new server has no sockets and no rooms, and has pushed nothing to anyone. |
| `Gateway.Joined` | pages/api/socket.io.ts:60 | Joining adds the socket to room `g` and leaves every other room as it was. |
| `Gateway.JoinIdempotent` | pages/api/socket.io.ts:60 | Rooms are sets, so joining the same room twice gives the room table of one join. |
| `Gateway.Gateway.JoinGroup` | pages/api/socket.io.ts:51-65 | With a membership row (user, group), the room table becomes the one after that join. Without it, the room table is unchanged. Users and the log are untouched. |
| `Gateway.Screen` | pages/api/socket.io.ts:68-70 | The handler returns early exactly when `content` or `groupId` is falsy. It builds a message exactly when both are truthy strings, so content and group id are non-empty. A truthy non-string field goes on to the store. |
| `Gateway.Persist` | pages/api/socket.io.ts:72-82 | A row is committed exactly when the payload passes screening, the store succeeds, the id is unused and the group exists. The row carries the given content and group id, the store's id and timestamp, and the sender's user as author. |
| `Gateway.Gateway.SendMessage` | pages/api/socket.io.ts:68-89 | No committed row: log and pushes unchanged. Committed: exactly that row is appended and pushed to exactly the sockets in the room at that moment; the sender gets it only if it is in the room, and every other delivery log is unchanged. Rooms and users are never changed. |
| `Gateway.ReceivedAppend` | pages/api/socket.io.ts:85 | Logging and pushing one message to a room extends exactly the delivery logs of that room's sockets by that message. |
| `Gateway.ReceivedNothing` | pages/api/socket.io.ts:85 | A socket that no message was pushed to has an empty delivery log. |
| `Gateway.ReceivedInPersistenceOrder` | pages/api/socket.io.ts:73-85 | Every socket's delivery log is a subsequence of the message log: messages reach each socket in persistence order. Since message ids are unique, two sockets that both received two messages received them in the same order; that consequence is not stated as a lemma of its own. |
| `Gateway.Gateway.Disconnect` | pages/api/socket.io.ts:92-94 | The socket leaves the live set and every room. No other socket or room changes. |
| `Gateway.HttpServer.Handle` | pages/api/socket.io.ts:14-99 | The first call creates an empty socket.io server over the store and keeps it. Later calls reuse the same server. |
| `GroupsRoute.MemberGroups` | app/api/groups/route.ts:13-20 | Keeps each group row exactly when a membership row for the user and that group exists. Each kept row appears as often as in the table. |
| `GroupsRoute.SortByNewest` | app/api/groups/route.ts:21-23 | The result is a permutation of the input, ordered by `createdAt` non-increasing. |
| `GroupsRoute.List` | app/api/groups/route.ts:6-32 | No session: 401 and no list. A session with a user and a working query: 200 with exactly the user's groups, newest first. Anything else (lookup throws, session without user, query throws): 500. Only a 200 carries a list. |
| `GroupsRoute.ListedExactlyTheMemberGroups` | app/api/groups/route.ts:13-20 | A group is listed if and only if it is in the table and the session's user has a membership row for it. |
| `GroupsRoute.Decide` | app/api/groups/route.ts:36-45 | No session, or a role other than "admin"/"GroupAdmin": 403 whatever the body, because the role check comes first. Authorised: a `name` that is not a string of at least 3 characters gives 400; otherwise a group is to be inserted, owned by the session's user. A thrown lookup, a session without a user, or a body that is not JSON or is null gives 500. |
| `GroupsRoute.Create` | app/api/groups/route.ts:35-63 | Success (201 with the new group) comes exactly when `Decide` says insert, the store succeeds and the id is unused. Then one group owned by the session's user is appended and exactly one new membership (owner, group) is added. In every other case, including 403 and 400, both tables are unchanged. |
| `Records.InsertGroupWithOwner` | app/api/groups/route.ts:47-55 | Inserting a group under an unused id, with its owner's membership, keeps ids unique and memberships pointing at existing groups. That membership did not exist before. |
| `Records.AppendFreshMessage` | pages/api/socket.io.ts:73-82 | Appending a message under an unused id keeps message ids unique. |
| `JsValue.Property` | app/api/groups/route.ts:42 | Destructuring `{ name }` throws exactly on null or undefined. Otherwise it yields the property's value, which is undefined when the property is absent. |
| `Scenarios.HelloReachesTheRoomOnly` | pages/api/socket.io.ts:51-89 | Members u1 and u2 join g1; non-member u3 tries to. u1 sends "hello". u1 and u2 each get exactly that message, authored by u1; u3 gets nothing. |
| `Scenarios.OutsiderCanStillPostToTheRoom` | pages/api/socket.io.ts:51-89 | The non-member's join leaves it outside the room. Its message is still persisted and pushed to the member in the room, not to itself. |
| `Scenarios.DisconnectLeavesEveryRoom` | pages/api/socket.io.ts:51-94 | A socket that joined two rooms is in neither after it disconnects. |
| `Scenarios.CreatedGroupAdmitsItsOwner` | app/api/groups/route.ts:47-57 | A group admin's POST returns 201. The owner membership it inserts lets the admin's socket join the new room. |

## Left out

- Transport and framework plumbing: socket.io transport, `res.end`, Next.js
  request handling and all `console` logging. The server singleton is kept
  only as the `io` field of `HttpServer`.
- Concurrency: handlers are atomic steps and interleavings are not modelled.
- The session library is not part of this model. Its lookup is the
  `SessionLookup` parameter.
- Message and group ids and `createdAt` values come from the store as
  parameters. They are assumed neither increasing nor unique: a reused id is
  treated as a failed insert.
- The users table is not modelled. The message's `author` row is taken to be
  the session's user, and the author foreign key is not checked.
- `Gateway.Gateway.JoinGroup`: `groupId` is a string. The code also accepts
  non-string values (Prisma drops an `undefined` filter), and a membership
  query that throws leaves the socket outside the room; neither is modelled.
  That failure has the same effect as "not a member".
- `Gateway.Gateway.SendMessage`: a missing `data` payload makes the
  destructuring throw before anything happens. It is not modelled; the
  payload's two fields are parameters.
- `GroupsRoute.Decide` (through `ValidName`): the length check counts Unicode scalar values, not
  the UTF-16 code units JavaScript's `name.length` counts. A name with
  characters outside the Basic Multilingual Plane can get a different answer:
  `"😀a"` is 3 long in JavaScript and passes, but is 2 long here and gets 400.
- `JsValue.Property`: only own properties are read. Properties a prototype
  provides (`"abc".length`, `({}).constructor`) read as undefined here. The
  only key the route reads, `name`, is defined by no prototype.
- JavaScript numbers are integers here: NaN and fractional values are not
  modelled.
- `GroupsRoute.SortByNewest`: the order among groups with equal `createdAt`
  is not specified by the query. The model picks one order, and the contract
  only requires non-increasing `createdAt`.
- Membership revocation, eviction of joined sockets, whitespace trimming,
  timeouts and backpressure are not implemented by the code, so they are not
  modelled.

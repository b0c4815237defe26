# Task-manager socket server and teams handler, in Dafny

This project models two pieces of a small task-tracking backend written in JavaScript.

The first is the socket.io server in `server.js`. A connection must handshake with a
truthy `auth` value before its `subscribe` and `unsubscribe` handlers exist. Those
handlers join and leave rooms keyed by `${taskType} ${teamId}`.toUpperCase(). A timer
publishes a synthetic `tasksUpdate` to one such room on every tick.

The second is `api/teams-api.js`: `generateID`, which interleaves a base-36 timestamp
with a random base-36 fragment, and the `teamsApi` dispatcher, which picks a store
call or answers 400 "Missing required fields" from the method, the url and the body
fields.

Modules:

- `Text` (text.dfy): `toUpperCase` and `toLowerCase` as character-wise case maps.
- `JsValues` (js_values.dfy): JavaScript truthiness and template-literal rendering of a
  string property, shared by both source files.
- `Rooms` (rooms.dfy): the room key, `juicer` and the generator's constants.
- `Broadcast` (server.dfy): the server as a class `Server`.
  - `conns`: each handle's state (`New`, `Authenticated(userAuth)`, `Disconnected`).
  - `membership`: a set of (handle, room key) pairs.
  - `outbox`: every emit in order, each with its set of recipients.
  - `teamsRequests`: the outstanding `getTeams()` calls.
  - `Inbox(outbox, h)` is what handle `h` has received. `io.to(room).emit` addresses
    exactly the members of the room at the time of the call.
- `TeamsApi` (teams_api.dfy): `generateID` as a loop. It is proved equal to `Interleave`,
  the order-preserving merge of its two inputs, and that merge is proved unique. The
  dispatcher and the store-continuation responses are pure functions.

Clock readings, random draws and their `toString(36)` renderings are parameters.
`Math.random()` becomes an index, or a fraction `num/den` in `RandomIndex`.
`Date.now().toString(36)` and `Math.random().toString(36)` become strings.
Each socket event is one atomic step on the server object.

Behaviour of the code worth noting:

- server.js:53, 57 and 97 do not trim either part of a room key, so `RoomKeyDoesNotTrim`
  proves that surrounding blanks change the key.
- Room keys do not separate their parts unambiguously. The task type "IN PROGRESS"
  contains a space, so `RoomKeyAliasesAcrossTheSpace` shows two different
  (taskType, teamId) pairs that name the same room. `RoomKeyInjective` shows the key
  is injective up to case when the task type contains no space.
- Nothing in the code rejects a command sent before the handshake. The room handlers
  are installed only on a successful handshake, so an earlier `subscribe` or
  `unsubscribe` changes nothing.
- The `handshake` handler stays installed after success, so a later handshake runs the
  gate again. With a falsy `auth` it disconnects an authenticated socket, which leaves
  all of its rooms.

## Model

| member | source | states |
|---|---|---|
| Text.Upper | server.js:53 | upper-casing keeps the length and maps each character on its own (ASCII letters to capitals) |
| Text.Lower | server.js:100 | lower-casing keeps the length and maps each character on its own (ASCII capitals to small letters) |
| Text.UpperIdempotent | server.js:53 | upper-casing twice equals upper-casing once |
| Text.UpperOfLower | server.js:100 | upper-casing a lower-cased string gives the upper-casing of the original |
| Rooms.RoomKey | server.js:53 | the key is the upper-cased task type, one space, the upper-cased team id; its length is the sum plus one; it is entirely upper case |
| Rooms.RoomKeyHasSpace | server.js:53 | every key has a space right after the task type (socket.io ids have none) |
| Rooms.RoomKeyNormalises | server.js:53 | the key of the upper-cased parts is the same key, and upper-casing a key leaves it unchanged |
| Rooms.RoomKeyCaseInsensitive | server.js:53-57 | parts that agree up to case give the same room for subscribe and unsubscribe |
| Rooms.RoomKeyInjective | server.js:53 | for space-free task types, two keys are equal exactly when both parts agree up to case |
| Rooms.RoomKeyAliasesAcrossTheSpace | server.js:53 | ("in progress", "team1") and ("in", "progress team1") name one room |
| Rooms.RoomKeyDoesNotTrim | server.js:53 | a leading blank on the task type or a trailing blank on the team id changes the key |
| Rooms.RandomIndex | server.js:11 | floor(random * length) with random in [0, 1) is a valid index for any non-empty choice list |
| Rooms.Juicer | server.js:10-13 | the pick is an element of the choices |
| Rooms.JuicerOfDraw | server.js:10-13 | for a non-empty list, the index a draw in [0, 1) produces is valid and its pick is one of the choices |
| Rooms.TickRoom | server.js:87-97 | the tick's room is the category followed by " L5WU7OPEQ4H843E19G" |
| Rooms.TickType | server.js:88-100 | the payload type is one of completed, in progress, pending, postponed, cancelled, and upper-cases back to the chosen category |
| Rooms.LowerCategory | server.js:88-94 | lower-casing each of the five categories gives its payload name |
| Broadcast.EventName | server.js:38-98 | the event names "error", "handshake" and "tasksUpdate" correspond one-to-one to the three message kinds |
| Broadcast.InboxAppend | server.js:98 | what a handle receives from two batches of emits is what it receives from each, in order |
| Broadcast.InboxEmit | server.js:98 | one more emit reaches a handle exactly when the handle is among its recipients |
| Broadcast.MembersOf | server.js:98 | a handle is in a room's member set exactly when it has joined that room |
| Broadcast.Joined | server.js:53 | join adds the handle to that one room; all other rooms and all other handles' rooms are unchanged |
| Broadcast.Left | server.js:57 | leave removes the handle from that one room; all other rooms and all other handles' rooms are unchanged |
| Broadcast.LeftAll | server.js:39 | after disconnection the handle is in no room, every room lost only that handle, other handles' rooms are unchanged |
| Broadcast.JoinIdempotent | server.js:53 | joining twice is joining once |
| Broadcast.LeaveNonMember | server.js:57 | leaving a room not joined leaves membership unchanged |
| Broadcast.JoinThenLeave | server.js:53-57 | subscribe then unsubscribe restores membership when the handle was not already a member |
| Broadcast.LeftAllIdempotent | server.js:39 | disconnecting twice is disconnecting once |
| Broadcast.RequestKey | server.js:53 | a subscribe payload's room is the upper-cased rendered task type, a space, the upper-cased rendered team id |
| Broadcast.AbsentFieldReadsAsUndefined | server.js:53-57 | an absent field names the same room as the string "undefined", and a payload without both fields names "UNDEFINED UNDEFINED" |
| Broadcast.TickMessage | server.js:95-101 | the tick emits `tasksUpdate` with a lowercase category name as `type`, and `new` is true exactly for the first flag choice |
| Broadcast.Server.constructor | server.js:15-29 | the server starts with no connections, no rooms and no emits |
| Broadcast.Server.Connect | server.js:31 | a connection gets a handle never used before, in state New; nothing else changes |
| Broadcast.Server.Handshake | server.js:33-48 | falsy auth: exactly one error "Invalid handshake" to the socket, socket disconnected and out of all rooms, no userAuth, no ack. Truthy auth: ack {success: true}, one pending teams request, userAuth set, membership unchanged. Closed or unknown socket: no change |
| Broadcast.Server.Subscribe | server.js:50-54 | an admitted socket joins the request's room, else membership is unchanged; nothing else changes |
| Broadcast.Server.Unsubscribe | server.js:55-58 | an admitted socket leaves the request's room, else membership is unchanged; nothing else changes |
| Broadcast.Server.Disconnect | server.js:31-84 | the socket is marked disconnected and is in no room; other sockets' rooms and the outbox are unchanged |
| Broadcast.Server.Tick | server.js:86-102 | one emit of the tick message to exactly the current members of TickRoom(c); each handle's inbox grows by the message exactly when it is a member; rooms and connections are unchanged |
| Broadcast.TwoClients | server.js:33-48 | two sockets that handshake with truthy keys are each acknowledged once and are admitted |
| Broadcast.TwoSubscribers | server.js:50-54 | lower-case subscriptions for the generator's team land in the generator's PENDING and COMPLETED rooms |
| Broadcast.PendingTickScenario | server.js:86-101 | a pending tick reaches the subscriber of the pending room and not the subscriber of the completed room |
| Broadcast.GeneratorKeys | server.js:53-97 | subscribe's key for ("pending", generator team) equals the tick's key for PENDING, and likewise for completed |
| TeamsApi.Substr | api/teams-api.js:10 | substr(start, length) has length min(length, rest of string) and holds the characters from start on |
| TeamsApi.RandomFragment | api/teams-api.js:10 | the random fragment has min(10, length - 2) characters (none for a rendering shorter than 2), so exactly 10 when the rendering has at least 12, and is the rendering from index 2 on |
| TeamsApi.Interleave | api/teams-api.js:11-16 | the id's length is the sum of both inputs' lengths |
| TeamsApi.InterleaveTail | api/teams-api.js:13-16 | after position 2*min the id is the rest of the longer input |
| TeamsApi.InterleaveLeft | api/teams-api.js:14 | timestamp character i sits at 2i while both inputs last, afterwards at min + i |
| TeamsApi.InterleaveRight | api/teams-api.js:15 | random character j sits at 2j + 1 while both inputs last, afterwards at min + j |
| TeamsApi.PositionsOrderedAndDisjoint | api/teams-api.js:13-16 | both position maps are increasing (order is kept) and never meet |
| TeamsApi.PositionsCover | api/teams-api.js:13-16 | every id position comes from the timestamp or from the random fragment |
| TeamsApi.InterleaveMerges | api/teams-api.js:13-16 | the id is a merge of both inputs at those positions |
| TeamsApi.MergeIsInterleave | api/teams-api.js:13-16 | any string that merges both inputs at those positions is the interleave (the merge is unique) |
| TeamsApi.ZipAt | api/teams-api.js:14-15 | within the common length, the timestamp character at index i precedes the random character at index i |
| TeamsApi.GenerateId | api/teams-api.js:8-18 | the loop's result is the interleave of the timestamp and the random fragment, merges both in order, and is at most 10 longer than the timestamp |
| TeamsApi.RouteOf | api/teams-api.js:21-64 | each of the four routes is chosen exactly when the method is POST and the url matches it |
| TeamsApi.Dispatch | api/teams-api.js:20-74 | no response exactly when no route matches. 400 "Missing required fields" exactly when a routed request lacks a truthy required field. Otherwise the route's store call with the body's values and the generated id |
| TeamsApi.Complete | api/teams-api.js:26-72 | a resolved call answers 201 "Team created successfully!" for add, 200 for the others (`res.json` defaults to 200) with "Team deleted successfully!" for delete and the rows for get and all; a rejected one answers 404 for get and 500 otherwise, with the error message |

## Left out

- Upper and Lower map only the ASCII letters. JavaScript's case mapping also covers the rest of Unicode, and some characters change length there (for example "ß" upper-cases to "SS").
- Truthiness is modelled for string fields only: absent and "" are falsy. Numbers, booleans, null and objects sent as `auth`, `id`, `teamName` or `teamAddress` are not modelled, and Render does not distinguish null ("null") from absent.
- A null or missing payload (`socket.emit("handshake")` with no argument) makes `data.auth` or `data.taskType` throw a TypeError at server.js:35, 53 and 57; that case is not modelled. A primitive payload such as `"abc"` or `5` has no such properties, reads them as undefined, and is covered as absent fields.
- The `teams` emit after `getTeams()` resolves is asynchronous store I/O. The model records the request in `teamsRequests` and stops there, including the unhandled rejection.
- The `updateTask` handler (server.js:59-67) and `sendMessageToChannel` (server.js:104-115) are left out. Both index `taskChannels`, an array of channel names, as if it held listener lists, so its behaviour is not well-typed.
- The `getTasks` handler (server.js:68-79) depends on asynchronous store results, and the `create task` handler (server.js:80-82) only forwards its payload to a store insert. Both are left out.
- socket.io also puts each socket in a room named after its own id. Every RoomKey result contains a space, and socket.io ids (URL-safe base64) never do, so no room key can name such a room; that room is not modelled.
- The close of the transport has no handler in server.js; `Disconnect` models socket.io removing the socket from all of its rooms.
- A repeated successful handshake installs the room handlers a second time. Join and leave are idempotent, so this has no effect on membership, and the model does not count handlers.
- The timer period (3000 ms), `setInterval`, the clock, `Math.random` and `toString(36)` are taken as parameters. So are CORS and transport settings; none is modelled.
- Concurrency between connections and the timer is not modelled; every event is one atomic step.
- Express body parsing and the error path of a missing `req.body` are not modelled.
- `Complete` assumes that the store calls return promises. In `dbactions.js`, `insertTeam`, `getTeam` and `deleteTeam` return nothing, so as written the `.then` call would throw. dbactions.js is not part of this model.
- dbactions.js, api/tasks-api.js and index.js are store access and routing glue and are not part of this model.

# Chat message relay: message log and ingestion paths

This project models the core of a small real-time chat backend (`app.js`). The core is an
in-memory, append-only message log with two ways in:

- the GraphQL mutation `addMessage`;
- the socket.io event `ADD_CHAT_MESSAGE`.

Each accepted message gets two server-assigned fields. `id` is the decimal string of the
log's length before the push. `date` is a clock reading. The two paths differ in whom they
notify:

- the mutation publishes on the subscription topic `MESSAGE_ADDED`, emits
  `CHAT_MESSAGE_ADDED` to every socket, and answers `{success: true, message}`;
- the socket path emits `CHAT_MESSAGE_ADDED` only back to the client that sent the message.

The query `messages` returns the whole log.

Layout:

- `decimal.dfy` (module `Decimal`): how an array length is rendered as an id. This is
  `Number.prototype.toString()` on a non-negative integer, together with the reading that
  inverts it.
- `messages.dfy` (module `Messages`): a submission as a JavaScript value (`Value`), and
  the stamping of `id` and `date`. It also holds the positional-id invariant of the log and
  the proof that it makes ids unique.
- `notifications.dfy` (module `Notifications`): the three event and topic names and the
  outbound notification records. It also defines what a subscriber, or a given socket
  client, receives from a trace of them.
- `server.dfy` (module `ChatServer`): class `Server`. It holds the log `messages`, which
  the handlers reassign, and a ghost `trace` of notifications sent. Its methods are the
  query, the mutation, the socket listener and the socket's event dispatch. Each method
  is specified against the functions above. `Valid()` (positional ids) is kept by every
  handler.

Behaviour of the code worth stating:

- Assigning `message.id` throws a TypeError when the submission is `null` or `undefined`.
  This happens when the mutation's optional `message` argument is missing, or a socket
  event comes with no payload. Nothing is then stored or sent, so an append can fail. The
  model returns `Err(TypeError)` on that path.
- The two paths end differently after that throw. GraphQL catches it and answers with an
  error, and the server keeps running. The socket listener has no handler for it, so the
  exception is uncaught and the process stops, losing the in-memory log. The model sets
  `halted`, and every handler requires `!halted`.
- The module is not in strict mode. So on a primitive payload (a string, number or
  boolean sent over the socket) the two assignments are silently dropped, and the
  primitive is pushed and echoed without any `id` or `date`. The invariant is therefore
  stated for the objects in the log: the object at position k has id `NatToDecimal(k)`.
  Ids are distinct across every entry that has one, as long as each submission is a
  distinct object (see the aliasing line under "## Left out").
- The code does nothing to make dates non-decreasing. No monotonicity of `date` is
  claimed.
- On the socket path every property the client sent is stored as-is, not only `text`,
  `author` and `userId`.

## Model

| member | source | states |
|---|---|---|
| Decimal.NatToDecimal | app.js:26 | an id is a canonical decimal numeral (digits only, no leading zero), and it starts with '0' exactly when the log was empty |
| Decimal.DecimalRoundTrip | app.js:26 | reading the id back as a decimal number gives the log position it was made from |
| Decimal.CanonicalRoundTrip | app.js:81 | every canonical numeral is the id of exactly the position it denotes, so ids and positions correspond one to one |
| Decimal.NatToDecimalInjective | app.js:26 | two log positions give the same id string if and only if they are the same position |
| Messages.Stamp | app.js:26-27 | an object submission gets `id` and `date` overwritten with the server's values, and every other property is kept unchanged with the same presence; a primitive is stored unchanged; null/undefined fails |
| Messages.Accept | app.js:26-27 | the entry a submission becomes: it fails exactly on null/undefined, and an object's id is a canonical numeral that reads back as the log's length before the push, and its date is the clock reading |
| Messages.AcceptKeepsPositionalIds | app.js:81-83 | appending a stamped submission keeps every object entry's id equal to its position, whatever id the caller sent, and its date is the clock value passed in |
| Messages.PositionalIdsAreDistinct | app.js:12-28 | when ids are positional, no two entries of the log carry the same id |
| Messages.ObjectLogIds | app.js:83 | in a log with positional ids, the object at position k, whatever entries surround it, has the decimal string of k as id, and that id reads back as k |
| Notifications.MutationReachesEveryone | app.js:30-31 | the mutation's notifications deliver the message exactly once to subscribers of `addedMessage` and exactly once to every socket client |
| Notifications.MutationEvents | app.js:30-31 | the mutation sends one `MESSAGE_ADDED` publication followed by one all-socket emission; together they give every subscriber and every socket client the message exactly once |
| Notifications.SocketEvents | app.js:85 | the socket path sends one emission, addressed to one client; it gives that client the message once, and nothing to any other client or to subscribers |
| Notifications.SocketReachesOnlySender | app.js:85 | the socket path's notification delivers the message once to its sender, and nothing to any other client or to any subscriber |
| Notifications.EventNamesDistinct | app.js:80-85 | the inbound event `ADD_CHAT_MESSAGE` differs from the outbound `CHAT_MESSAGE_ADDED`, which also differs from the topic `MESSAGE_ADDED` (app.js:10), so an announcement is never taken for a submission |
| ChatServer.Server.constructor | app.js:12 | the log starts empty and nothing has been sent |
| ChatServer.Server.Messages | app.js:21 | the query returns exactly the current log in insertion order and changes nothing; while each submission was a distinct object, the ids in it are pairwise distinct |
| ChatServer.Server.AddMessage | app.js:24-36 | on success the log grows by exactly the stamped message at the end, the answer is `success = true` with that very message, and the trace gains one `MESSAGE_ADDED` publication of `{addedMessage: message}` followed by one `CHAT_MESSAGE_ADDED` broadcast; a missing message fails with nothing stored or sent and the server keeps running |
| ChatServer.Server.AddChatMessage | app.js:80-86 | on success the log grows by exactly the stamped message at the end, and the trace gains one `CHAT_MESSAGE_ADDED` emission addressed to the sending client only; a null/undefined payload throws with nothing stored or sent, and the server halts |
| ChatServer.Server.OnClientEvent | app.js:79-87 | only `ADD_CHAT_MESSAGE` is handled, as `AddChatMessage` does it (append and echo, or halt on a null/undefined payload); every other inbound socket event, including the server's own `CHAT_MESSAGE_ADDED`, leaves log and trace unchanged |

## Left out

- HTTP server setup, static file serving, the catch-all `index.html` route and `server.listen` (app.js:6-7, 96-120): transport plumbing with no message logic.
- Apollo server construction, the GraphQL schema text and middleware wiring (app.js:40-77, 89-94): library configuration. `addMessage2` and `Book` have no resolver, so they have no behaviour. The projection of stored values onto the `ChatMessage` output type is GraphQL's and is not modelled.
- The subscription iterator and socket connection lifecycle (app.js:8-9, 17, 79): the set of currently connected clients and subscribers is not tracked. "Every socket client" means every client id, and delivery is read off the ordered notification trace.
- `Date.now()`: the clock reading is a parameter `now` of each handler.
- Concurrency: the handlers run to completion one at a time, as on Node's event loop.
- Object aliasing: in the source the stored entry, the published payload and the returned message are one object. Here they are equal values. A consequence is not captured: if one object is submitted twice, the second stamp rewrites the first entry in place. One GraphQL operation can do this by passing the same variable to two `addMessage` fields. The log then holds the same object twice, both with the later id. The model treats every submission as a fresh value, so its positional-id and distinct-id results hold only while each submission is a distinct object.
- Numbers are integers: non-integer JSON numbers in a payload are not represented. Arrays sent as payloads are represented as objects keyed by index. The serialisation of extra properties on arrays is not modelled.
- Array length limit: JavaScript arrays hold at most 2^32-1 entries. The log here is unbounded.

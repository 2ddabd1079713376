# chitchat presence registry and event router, in Dafny

The chitchat server keeps one shared list of login records
`{username, socketId, online}` and reacts to four events per connection:

- `login` appends an online record for the connection and broadcasts the whole list (`users`).
- The transport's `disconnect` marks every record of the connection offline and broadcasts the list.
- `sendMessage` forwards the message unchanged (`receiveMessage`) to the connection of the first record named by its receiver.
- `typing` sends `{sender, isTyping}` to that same connection.

Two files model this core:

- `sessions.dfy` (module `Sessions`) holds the `Session` record and the pure list operations:
  - `FindFirst`, the first-match lookup by username (`users.find`);
  - `MarkOffline`, the mapped copy made on disconnect (`users.map`);
  - `CountNamed` and `HasUser`, which the lemmas use.
- `router.dfy` (module `Router`) holds the rest:
  - the inbound `Event` and outbound `Outbound` values;
  - `Step`, the specification of one handler run to completion;
  - `Run`, the specification of a trace of events handled one after another;
  - the class `Registry`, whose `users` field is the shared list, with one method per handler and `Handle` dispatching an event.

`Handle` is proved to agree with `Step`. The trace lemmas are stated over `Run`.

The lookup never reads `online` (chitchat_be/server.js:41-42, 49-50). An event for a username goes to the FIRST record ever registered under that name, even after that record's connection has gone offline. A later, online login under the same name is never chosen. One might expect delivery only to an online record; the code does not check this, and the model follows the code: `RouteIgnoresOffline` and `StaleRouteAfterDisconnect` prove the code's behaviour.

## Model

| member | source | states |
|---|---|---|
| Sessions.FindFirst | chitchat_be/server.js:41 | the result is absent exactly when no record has the name; otherwise it is the position of a record with that name, and no earlier record has it |
| Sessions.MarkOffline | chitchat_be/server.js:33-35 | the disconnect copy has the same length and order; each record keeps its username and connection; it is online exactly when it was online and does not belong to the disconnecting connection |
| Sessions.FindFirstOnlyReadsNames | chitchat_be/server.js:41 | two lists that agree on every record's username give the same lookup result (the `online` flag and connection play no part) |
| Sessions.FindFirstIgnoresOffline | chitchat_be/server.js:33-41 | after a disconnect, the lookup of any name returns the same record as before |
| Sessions.FindFirstAppend | chitchat_be/server.js:27 | a new login never displaces an earlier match; it is the match only when nothing before it matched |
| Sessions.MarkOfflineIdempotent | chitchat_be/server.js:33-35 | disconnecting the same connection twice yields the same list as once |
| Sessions.MarkOfflineAppend | chitchat_be/server.js:33-35 | the disconnect copy works record by record, so it distributes over concatenation of lists |
| Sessions.MarkOfflineNoMatch | chitchat_be/server.js:33-35 | a disconnect whose connection owns no record leaves the list unchanged |
| Sessions.CountNamedAppend | chitchat_be/server.js:26-27 | there is no uniqueness check: appending a record with an existing name raises that name's record count by exactly one |
| Router.Route | chitchat_be/server.js:41-43 | a routed event has a target exactly when some record has the receiver's name; the target is the connection of the first such record |
| Router.RouteIgnoresOffline | chitchat_be/server.js:41-51 | a disconnect never changes the connection a message or typing notice for any name is routed to |
| Router.Step | chitchat_be/server.js:26-53 | login and disconnect emit exactly one `users` broadcast of the post-event list; login grows the list by one and keeps the old list as its prefix; disconnect keeps the length; routing events leave the list unchanged, emit at most one event, and emit none exactly when no record has the receiver's name |
| Router.Run | chitchat_be/server.js:19-37 | across any trace of events the list never gets shorter |
| Router.RunKeepsRecords | chitchat_be/server.js:26-37 | across any trace every earlier record stays at its position with its username and connection: records are never removed or reordered |
| Router.RunOnlineOnlyFalls | chitchat_be/server.js:26-37 | across any trace a record that ends online was online at the start: no event revives an offline record |
| Router.RunOnlineStays | chitchat_be/server.js:26-37 | across any trace without a disconnect of its connection, an online record stays online |
| Router.RunConcat | chitchat_be/server.js:22-54 | handling a trace in two parts leaves the same list as handling it whole, the second part starting from the list the first left |
| Router.RunConcatEmitted | chitchat_be/server.js:22-54 | the outbound events of a two-part trace are those of the first part followed by those of the second |
| Router.OneBroadcastPerLifecycleEvent | chitchat_be/server.js:26-37 | over any trace the number of `users` broadcasts equals the number of login and disconnect events, including disconnects that matched no record |
| Router.LoggedInStaysPresent | chitchat_be/server.js:26-37 | every username that logs in during a trace still has a record at its end |
| Router.DuplicateLoginRoutesToFirst | chitchat_be/server.js:26-43 | two logins under a new name from two connections add two online records, and routing for that name picks the first connection |
| Router.StaleRouteAfterDisconnect | chitchat_be/server.js:26-43 | after the first of two same-name logins disconnects, its record is offline and the second is online, yet routing still picks the first, dead connection |
| Router.TypingArrivesInOrder | chitchat_be/server.js:48-52 | two typing events for a registered receiver reach its connection in order, each reduced to `{sender, isTyping}`, and the list is unchanged |
| Router.Registry.constructor | chitchat_be/server.js:19 | the registry starts empty |
| Router.Registry.Login | chitchat_be/server.js:26-29 | appends exactly `{username, conn, online: true}` at the end and returns a broadcast of the new list |
| Router.Registry.Disconnect | chitchat_be/server.js:32-37 | replaces the list by its disconnect copy and returns a broadcast of the new list |
| Router.Registry.SendMessage | chitchat_be/server.js:40-45 | returns nothing exactly when no record has the receiver's name; otherwise a `receiveMessage` carrying the message unchanged to the connection of the first such record, online or not |
| Router.Registry.Typing | chitchat_be/server.js:48-53 | returns nothing exactly when no record has the receiver's name; otherwise `{sender, isTyping}` addressed to the connection of the first such record |
| Router.Registry.Handle | chitchat_be/server.js:22-54 | dispatching an event to its handler changes the list and emits exactly what `Step` specifies |

## Left out

- Socket.IO transport, delivery and framing (chitchat_be/server.js:4, 9-14, 28, 43, 51). Outbound events are returned as values, not sent. A `users` broadcast goes to every connection; a routed event goes to one connection id.
- The origin connection of `sendMessage` and `typing`: the handlers do not use it, so the routing events do not carry it.
- Message payloads are modelled as `{sender, receiver, text}`. JavaScript forwards any object unchanged, including extra or missing fields.
- `sendMessage` and `typing` with a `null` or `undefined` payload: reading `data.receiver` (chitchat_be/server.js:41) or destructuring the parameter (chitchat_be/server.js:48) throws a TypeError that neither handler catches. `Message` and `Typing` are plain records, so the model cannot express that throw. Likewise usernames, `receiver` and `sender` are typed `string` and `isTyping` `bool`, whereas JavaScript compares and forwards any value with `===`; for example an absent receiver (`undefined`) matches a record whose username is `undefined`.
- Express and CORS setup, `server.listen` and the port constant (chitchat_be/server.js:2-17, 56-60): HTTP plumbing with no logic.
- `console.log` calls (chitchat_be/server.js:23, 59): output only.
- The React client (chitchat_ui/src/App.js): view state tied to React hooks, not part of the server core.
- Concurrency: Node runs each handler to completion, so events are a sequential trace (`Run`).
- Identity of the list object: `login` pushes onto the shared array in place, while `disconnect` replaces it with a new array. The model reassigns a `seq` field in both cases. No observer in the source holds the old array, so this loses nothing.

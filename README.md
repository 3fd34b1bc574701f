# Chat gateway presence and routing registry

This project models the presence and routing registry of a small socket.io
chat relay. The registry is the NestJS gateway class `AppGateway`. It keeps an
ordered list of `{name, client}` entries, one per `connectName` registration.
Its event handlers do three things:

- append to that list (`connectName`);
- filter it when a socket disconnects (`handleDisconnect`);
- read it to route a directed message to the first entry with the matching
  name (`sendMessageTo`), or to announce the online count and the name list
  (`handleConnection`).

`handleMessage` broadcasts a message and does not read the list.

The model has four modules:

- `Chat` (chat.dfy) holds the values. The message record is `Message`. A
  registry entry is `Entry(name, client)`, where the socket is reduced to its
  connection id. `Emission(audience, event)` is one `emit` call. Its audience
  is `All` for `server.emit` or `To(id)` for `socket.emit`, and its events are
  `countOnline`, `addPersons`, `removePerson`, `enableOnline`, `messageToAll`
  and `messageTo` with their payloads.
- `Registry` (registry.dfy) holds the pure list operations the handlers use:
  - `First` models `Array.prototype.find` and returns the index of the first
    match;
  - `Without` models the `filter` by connection id;
  - `Names` models the `map` to names;
  - lemmas relate these operations to one another.
- `Gateway` (gateway.dfy) holds the class `AppGateway`. Its field
  `clients: seq<Entry>` is the list. Each handler is a method that returns the
  emissions it makes, in the order it makes them. The handlers that change the
  list have `modifies this`.
- `Scenarios` (scenarios.dfy) holds runs of several handlers in a row, as the
  single event loop would deliver them.

Two behaviours of the code are easy to misread:

- **The online count covers registered entries only.** `countOnline` is
  always the length of the list, and only `connectName` adds to the list. So
  a socket that has connected but not registered is not counted, and the
  count broadcast on connection is the count before the newcomer.
- **Disconnect removes every entry of the connection, not just one.** A
  connection that registered twice loses both entries. Only the name of the
  first entry is announced.

## Model

| member | source | states |
|---|---|---|
| Chat.WireName | api/src/app.gateway.ts:27-65 | each kind of event goes on the wire under the name the handlers pass to `emit`: `countOnline` (lines 43, 55, 64), `addPersons` (44, 56), `removePerson` (65), `enableOnline` (45), `messageToAll` (27) and `messageTo` (34) |
| Chat.WireNameDeterminesKind | api/src/app.gateway.ts:27-65 | two events have the same wire name exactly when they are of the same kind, so a receiver can tell every pushed event apart by its name |
| Registry.HasName | api/src/app.gateway.ts:32 | the lookup predicate of `sendMessageTo`: an entry matches when its name equals the message's `nameTo` |
| Registry.HasClient | api/src/app.gateway.ts:61 | the lookup predicate of `handleDisconnect`: an entry matches when its connection id equals the disconnecting socket's id |
| Registry.First | api/src/app.gateway.ts:32 | the result is the index of the first element meeting the predicate (it meets it and no earlier one does); None exactly when no element meets it |
| Registry.FirstAppend | api/src/app.gateway.ts:32 | lookup in `a + b` finds the same element it finds in `a`; only when `a` has no match does it find the first match of `b`, shifted by the length of `a` (first match wins, and later registrations never take over a name) |
| Registry.Names | api/src/app.gateway.ts:44 | the name list has one name per entry, in list order, each the name of the entry at the same position |
| Registry.NamesAppend | api/src/app.gateway.ts:42-44 | the names of a concatenation are the concatenation of the names, so after a push the name list gains exactly the new name at its end |
| Registry.Without | api/src/app.gateway.ts:63 | the filtered list is no longer than the original; it holds exactly the original entries whose connection differs from the id; it equals the original exactly when no entry has the id |
| Registry.WithoutMultiplicity | api/src/app.gateway.ts:63 | the filter keeps every entry of another connection exactly as many times as it occurs in the original, and no entry of the disconnecting connection |
| Registry.WithoutAppend | api/src/app.gateway.ts:63 | filtering distributes over concatenation, so the kept entries stay in their original relative order |
| Registry.WithoutIdempotent | api/src/app.gateway.ts:63 | filtering the same connection out twice gives the same list as filtering once |
| Registry.WithoutAbsent | api/src/app.gateway.ts:61-63 | when `find` by connection id finds nothing, the filter leaves the list as it was |
| Registry.WithoutPresent | api/src/app.gateway.ts:61-64 | when `find` by connection id finds an entry, the filter strictly shortens the list, so the count announced afterwards drops |
| Registry.DisconnectUndoesRegister | api/src/app.gateway.ts:42-63 | for a connection with no entry yet, registering and then filtering that connection out restores the original list |
| Gateway.AppGateway.constructor | api/src/app.gateway.ts:23 | a new gateway has no entries |
| Gateway.AppGateway.HandleMessage | api/src/app.gateway.ts:25-28 | exactly one emission, to everyone: `messageToAll` with the unchanged payload and the sender's connection id; the list is not changed |
| Gateway.AppGateway.SendMessageTo | api/src/app.gateway.ts:30-37 | at most one emission; none exactly when no entry has the name `payload.nameTo` (silent drop); otherwise `messageTo` with the unchanged payload, sent only to the connection of the first entry with that name; the list is not changed |
| Gateway.AppGateway.ConnectName | api/src/app.gateway.ts:39-47 | the list becomes the old list plus `Entry(name, client)` at its end (length up by one, no check on the name or on duplicates); the emissions are, in order, `countOnline` with the new length to everyone, `addPersons` with the new names (the old names plus `name`) to everyone, and `enableOnline` to the registering connection only |
| Gateway.AppGateway.HandleConnection | api/src/app.gateway.ts:54-58 | two emissions to everyone: `countOnline` with the current number of entries, which does not include the new connection, then `addPersons` with the current names in list order; the list is not changed |
| Gateway.AppGateway.HandleDisconnect | api/src/app.gateway.ts:60-68 | with no entry for the connection, nothing changes and nothing is emitted; otherwise every entry of the connection is removed, the others keep their order, and the handler emits `countOnline` with the new, smaller length, then `removePerson` with the name of the first entry found |
| Scenarios.DirectMessageReachesOnlyRecipient | api/src/app.gateway.ts:30-58 | after alice and bob register, the second registration announces a count of 2 and the names `["alice", "bob"]`, and a message from alice to bob reaches only bob's connection |
| Scenarios.DuplicateNameGoesToFirst | api/src/app.gateway.ts:32-42 | when two connections register the same name, a message to that name reaches only the one that registered first |
| Scenarios.RegisterThenDisconnect | api/src/app.gateway.ts:39-68 | after a connect, a registration as alice and a disconnect, everyone hears `countOnline` 0 and then `removePerson` alice |
| Scenarios.UnregisteredDisconnectIsSilent | api/src/app.gateway.ts:54-68 | a socket that connected but never registered leaves without any emission, and the registered entries stay |
| Scenarios.SecondDisconnectIsSilent | api/src/app.gateway.ts:60-68 | after a registration and a disconnect, a second disconnect of the same connection finds no entry and emits nothing |
| Scenarios.RegistrationWireNames | api/src/app.gateway.ts:43-45 | the event names a registration puts on the wire are `countOnline`, `addPersons` and `enableOnline`, in that order |
| Scenarios.RegisterTwiceThenDisconnect | api/src/app.gateway.ts:42-65 | registering twice from one connection gives two identical entries; disconnecting removes both and announces the name once, with a count of 0 |

## Left out

- `afterInit` and the logger and `console.log` calls (api/src/app.gateway.ts:21, 35, 41, 46, 50-52, 57, 66): they only write log output.
- The NestJS decorators, `@WebSocketServer` and the CORS settings (api/src/app.gateway.ts:13-19): framework wiring. `server.emit` and `socket.emit` are modelled as returned `Emission` values.
- The socket.io transport: which sockets are connected, and how messages are delivered or buffered. `All` means "every connected socket", and no model of that set is kept. A `Socket` is reduced to its connection id, and two entries have the same connection exactly when their ids are equal.
- Concurrency: the gateway handles one event at a time on one event loop. Handlers are modelled as sequential method calls.
- Payload validation: the code does none. Payloads are well-typed `Message` values and names are strings.
- The browser client (ui/app/page.tsx): rendering, and its de-duplication and removal of names in the displayed list. It is presentation, not part of the registry.
- The rest parameter `...args` of `handleConnection` (api/src/app.gateway.ts:54): the body never reads it, so `HandleConnection` takes only the connection id. The unused `client` parameter of `sendMessageTo` is kept, and the sender id that `handleMessage` passes to `server.emit` is a field of the `messageToAll` event.

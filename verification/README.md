# sparkle-relay: session state machine, registry and fan-out

A Dafny model of the two versions of the sparkle-relay presence server. Clients
open a socket connection, announce an identity with `hello`, and then stream
`update` messages carrying their position and speaking flag. Updates travel
through one global pub/sub channel, which every instance also receives from.
The current server relays each one to every bound client, the sender
included. The older server relays it to every registered client, bound or
not. The current server also keeps a shared snapshot (uid to UserState) in
the store for late joiners.

Once the socket library, the HTTP server and the store/channel clients are
removed, each server is a sequential transition system. Its state is a
registry from connection id to an optional uid. The current server also holds
the stored snapshot. Each event handler becomes a pure function, or a method
for the fan-out loop, that returns the next state and a list of effects:
`Write(id, message)`, `Close(id)` and `Publish(payload)`.

- `connections.dfy`, module `Connections`: the registry both versions share.
  A connection is *bound* only when its uid is truthy, i.e. present and
  non-empty.
- `relay.dfy`, module `Relay`: the current server, `src/index.ts`.
  - Hello binds the uid and replies with the whole snapshot.
  - Update overwrites the sender's snapshot entry and publishes a delta.
  - A channel delta is written as a singleton Broadcast to bound connections only.
- `legacy_relay.dfy`, module `LegacyRelay`: the older server, `src/index.js`.
  - Hello needs a truthy uid and gets no reply.
  - Update needs truthy `x`, `y` and `speaking` and is published as received.
  - Channel messages are written verbatim to every registered connection.

Each store or channel round trip is treated as finishing, and succeeding,
inside the step that starts it. A rejected message leaves its registry entry
in place. The entry goes away only when the transport reports the close,
through `Disconnect` (`Connections.Unregister` in the older server).

`Relay.Reject` and `LegacyRelay.Reject` (the catch blocks, src/index.ts:129-133
and src/index.js:56-58) are parts of the two `OnData` handlers. So are
`Relay.Snapshot` (the `?? "{}"` default, src/index.ts:97 and 115) and
`LegacyRelay.HasData` (the falsy-field test, src/index.js:50). They have no
rows of their own. `OnDataFollowsProtocol` pins down what they produce.

Some behaviours of the code are worth stating explicitly:
- A parsed message whose `type` is neither hello nor update is ignored, not
  refused. The exception is the JSON literal `null`: reading its `type`
  throws, so it is refused and the connection closed, like text that does not
  parse.
- In the current server, a Hello with an empty or missing uid is accepted. It
  gets the snapshot, but the connection stays unbound.
- Neither server checks coordinate bounds or assigns a spawn position.
- Neither server publishes anything on a first Hello.
- In the current server, an Update without an `update` field assigns
  undefined to the sender's entry. The SET's serialisation drops that key, so
  the entry disappears from the stored snapshot, and every receiver gets a
  Broadcast with an empty `updates` map.
- The connection and close handlers are the same in both servers
  (src/index.js:27 and 61-63 match src/index.ts:81 and 136-138), so the
  older server uses `Connections.Register` and `Connections.Unregister`
  directly.

## Model

| member | source | states |
|---|---|---|
| Connections.Register | src/index.ts:81 | a new connection is registered with no uid, so it is unbound; every other entry and binding is kept |
| Connections.Unregister | src/index.ts:136-138 | close deletes exactly that id, keeps every other entry, and is a no-op for an absent id |
| Connections.RegisterThenUnregister | src/index.ts:136-138 | closing a connection opened under a fresh id restores the previous registry |
| Connections.UnregisterIdempotent | src/index.ts:137 | a repeated close event changes nothing more |
| Relay.Connect | src/index.ts:80-81 | the connection handler registers the id unbound and leaves other entries and the store unchanged |
| Relay.Disconnect | src/index.ts:136-138 | the close handler removes only that id and leaves the store unchanged |
| Relay.OnData | src/index.ts:83-134 | a client message changes only the sender's own record and never a truthy binding; writes and closes go only to the sender; a close comes with a diagnostic and no state change; the store changes only on a valid Update, which replaces or (with no `update` field) erases the sender's entry; a publish always agrees with the new stored entry |
| Relay.HelloReply | src/index.ts:96-102 | the Hello reply is a Broadcast of the whole stored map, and of the empty map when the store holds nothing |
| Relay.Overwrite | src/index.ts:114-119 | after an Update the snapshot has the sender's entry set to the update, or removed when the update is absent, and every other entry unchanged |
| Relay.Relayed | src/index.ts:62-66 | a channel delta becomes a Broadcast whose updates map is the singleton `{uid: update}`, or empty when the delta has no update |
| Relay.OnChannel | src/index.ts:60-78 | a garbled channel payload produces nothing; a delta is written exactly once to each bound connection and never to an unbound one |
| Relay.UpdateAndRelay | src/index.ts:114-125 | a valid Update published and received back by the same instance reaches every bound connection, the sender included, exactly once, and what each receives for the uid agrees with the store |
| Relay.HelloOnUnbound | src/index.ts:88-104 | Hello on an unbound connection binds the given uid and replies with exactly one Broadcast of the snapshot |
| Relay.EmptyHelloStaysUnbound | src/index.ts:89-94 | a Hello with an empty uid leaves the connection unbound, adds nothing to the fan-out set, and can be repeated |
| Relay.HelloTwiceCloses | src/index.ts:90-92 | Hello on a bound connection writes a diagnostic, closes it, and changes no state |
| Relay.UpdateGuardsClose | src/index.ts:107-112 | an Update before Hello, or with a uid other than the bound one, closes the connection with no store write and no publish |
| Relay.ValidUpdate | src/index.ts:114-125 | a valid Update sets the sender's entry to the update, keeps every other entry, and publishes exactly one delta `{uid, update}` |
| Relay.UpdateWithoutStateErases | src/index.ts:114-125 | an accepted Update with no `update` field removes the sender's entry, keeps every other entry, and publishes a delta that receivers turn into an empty Broadcast |
| Relay.UpdateTwice | src/index.ts:114-119 | the same Update sent twice leaves the same state as once, with no added key |
| Relay.OtherTypeIgnored | src/index.ts:87-128 | a message of any other type changes nothing and emits nothing |
| Relay.OnDataFollowsProtocol | src/index.ts:87-133 | for every phase and message, the data handler does what the explicit Unbound/Bound phase table says: a refusal is exactly a diagnostic and a close with no state change, and an accepted message moves the connection to the table's next phase with no close; an empty-uid Hello keeps it Unbound |
| Relay.UnparsableCloses | src/index.ts:129-133 | unparsable client data, or JSON `null`, gets a diagnostic and a close, with no state change |
| Relay.BindingPersists | src/index.ts:90-94 | once bound, a connection keeps its uid through any events until its transport is closed or re-registered |
| Relay.SnapshotLosesOnlyErased | src/index.ts:114-119 | over any sequence of events, an identity leaves the stored snapshot only if an Update without an `update` field was sent for it |
| LegacyRelay.OnData | src/index.js:28-60 | a client message changes only the sender's record, never a truthy binding, and gives a record only a truthy uid; a close comes with a "Bad message" write and no change; only a complete Update from its bound connection is published, unchanged |
| LegacyRelay.OnChannel | src/index.js:19-25 | a channel message's text is written unchanged, without parsing, exactly once to every registered connection, bound or not |
| LegacyRelay.HelloTwiceCloses | src/index.js:35-37 | Hello on a bound connection gets a "Bad message" write and is closed |
| LegacyRelay.EmptyHelloCloses | src/index.js:38-40 | Hello with a missing or empty uid closes the connection and leaves it unbound |
| LegacyRelay.ValidHello | src/index.js:41-42 | a valid Hello binds the uid and emits no write and no publish |
| LegacyRelay.UpdateGuardsClose | src/index.js:44-49 | an Update before Hello, or with a uid other than the bound one, closes the connection and publishes nothing |
| LegacyRelay.FalsyFieldsClose | src/index.js:50-52 | an Update with `x = 0`, `y = 0` or `speaking = false` is refused and the connection closed |
| LegacyRelay.ValidUpdate | src/index.js:53 | a complete Update from its bound connection publishes exactly the received message and nothing else |
| LegacyRelay.OtherTypeIgnored | src/index.js:33-54 | a message of any other type changes nothing and emits nothing |
| LegacyRelay.OnDataFollowsProtocol | src/index.js:33-58 | for every phase and message, the data handler does what the explicit Unbound/Bound phase table says: a refusal is exactly a "Bad message" write and a close with no registry change, and an accepted message moves the connection to the table's next phase with no close, publishing only for an Update |
| LegacyRelay.RunKeepsNoEmptyBinding | src/index.js:38-41 | no sequence of events ever stores an empty uid in the registry |
| LegacyRelay.BindingPersists | src/index.js:35-41 | once bound, a connection keeps its uid through any events until its transport is closed or re-registered |

## Left out

- The socket library, the HTTP server, the listen port and the store/channel
  clients are I/O. They appear only as the effects `Write`, `Close` and
  `Publish` and as the `store` field of the current server's state.
- The store's SET is not a separate effect. The SET result becomes the next
  state's `store`.
- Asynchronous interleaving is not modelled. This covers the lost update when
  two instances run the non-atomic GET/SET concurrently. It also covers the
  window in which a Hello has bound the uid before its snapshot reply is
  delivered.
- JSON text is not modelled. Parsed messages are datatypes, and a parse failure
  is a constructor of its own. Diagnostic strings become a `Failure` value,
  not formatted text.
- Non-string uids are not modelled. Nor is a channel payload that parses but
  lacks `uid`. A payload that lacks only `update` is the delta with no
  update. A stored value that is not valid JSON is left out too; there the
  parse throws inside the store callback, outside any handler.
- In the older server, the text a `Publish` puts on the channel is the
  serialised client message. Serialisation is not modelled, so the model does
  not link a published message to the channel text that other instances
  forward.
- Relay.Overwrite: assumes the store's GET succeeds. Store failures are not
  modelled. The source ignores the GET's error argument (src/index.ts:96,
  114), and `allDataStr ?? "{}"` reads a failed GET as the empty map. A
  failed GET during an Update therefore SETs a map that holds only the
  sender's entry, which erases every other identity.
- Relay.Overwrite: treats the snapshot as a map for every uid, including
  `__proto__`. The source keeps the snapshot in a plain JavaScript object.
  There, `allData["__proto__"] = update` (src/index.ts:117) calls the
  inherited prototype setter and creates no own property. The SET
  (src/index.ts:119) then leaves the stored snapshot unchanged, whereas the
  model stores the entry.
- Relay.ValidUpdate: for the uid `__proto__`, the source does not set the
  sender's entry, because of the prototype setter described for
  Relay.Overwrite. It still
  publishes the delta (src/index.ts:120-125).
- Relay.UpdateAndRelay: for the uid `__proto__`, what receivers get does not
  agree with the store. The fan-out's computed key (src/index.ts:65) creates
  an own `__proto__` property, so every bound connection receives
  `{"__proto__": update}`, while the stored snapshot has no such entry.
- Relay.OnData: "a publish always agrees with the new stored entry" fails in
  the source for the uid `__proto__`. The delta is published, but nothing is
  stored, because of the prototype setter described for Relay.Overwrite.
- Relay.ValidUpdate: "every other entry is kept" holds only while the store
  works, because a failed GET reads as the empty map (see Relay.Overwrite).
  A failed SET (src/index.ts:119 has no callback) still publishes the delta,
  which is not modelled either.
- Relay.SnapshotLosesOnlyErased: holds only while the store's GET and SET
  succeed. A failed GET during any Update can erase all other entries, as
  described for Relay.Overwrite.
- Relay.HelloReply: assumes the GET succeeds. After a failed GET the source
  replies with an empty Broadcast.
- Logging (`console.error`, `console.log`) is left out.
- JavaScript numbers are modelled as `int`, with 0 the only falsy value. NaN
  and fractions are not modelled.
- Relay.OnChannel: states how many writes each connection gets, not their
  order. The source iterates `Object.values` of the registry, and the model
  registry is an unordered map.
- LegacyRelay.OnChannel: states how many writes each connection gets, not their
  order, for the same reason.

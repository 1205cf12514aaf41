# Connection registry and signaling relay of a live-streaming server

This project models the WebSocket side of a live-streaming backend written for
Node.js with socket.io. The server keeps four in-memory structures:

- `broadcasters`: a JavaScript `Set` of socket ids.
- `viewers`: a map from a viewer socket to the broadcaster socket it watches.
- `activeUsers`: a map from a socket to the user id the client announced.
- `streamSocketMap`: a map from a stream row id to the broadcaster socket serving it.

Each socket event updates these structures and emits messages. The events are
`login-user-id`, `broadcaster`, `watcher-ready`, `watcher`, `offer`/`answer`/`candidate`,
`start-stream` and `disconnect`. Viewers use the emitted messages to find
broadcasters and to negotiate peer connections with them.

The project has four modules:

- `OrderedSet` (`ordered_set.dfy`) models the JavaScript `Set` as a duplicate-free
  sequence in insertion order. That order is what `[...broadcasters]` lists in
  every `broadcaster-list` message.
- `Protocol` (`protocol.dfy`) defines the data model and one pure function per
  event. Each function gives the next registry state, the messages emitted and
  the database statements issued.
- `Properties` (`properties.dfy`) holds the lemmas. They cover what each event
  changes, emits and leaves alone, the invariant every event keeps, the cleanup
  that `disconnect` does, and the cleanup it does not do.
- `Server` (`server.dfy`) holds the class `Registry`. Its fields are the four
  structures, plus an `outbox` of emitted messages and a list of `storeCalls`
  sent to the database. It has one method per event and mutates the fields in
  place. The `disconnect` sweep over `streamSocketMap` is a loop that deletes
  entries while it walks the map's keys in insertion order. Each method is
  proved to perform exactly the step its `Protocol` function gives.

The model's conventions:

- Socket ids are non-empty strings, so they are always truthy. `if (broadcasterSocketId)`
  therefore means "the stream is bound".
- A user id is a non-empty string. A value the client sent that is falsy
  (`""`, `null`, `undefined`, `0`, ...) is stored as `None`. The entry still
  exists, but `start-stream` and `disconnect` treat it as absent, as
  `if (!userId)` and `if (userId)` do.
- The outcome of the `INSERT` in `start-stream` is a parameter: `InsertFailed`
  or `Inserted(streamId)`. The `UPDATE` in `disconnect` does not affect the
  registry whatever its outcome. It appears only as a recorded `EndLiveStreams`
  call.
- Each handler runs as one atomic step.

Behaviours of the code worth knowing:

- A disconnecting broadcaster is not removed from the values of `viewers`.
  Viewers bound to it keep their entries (`Properties.ViewerOutlivesBroadcaster`).
- One socket may serve several streams at once (`Properties.OneSocketManyStreams`).
- `broadcaster-disconnected` goes to every client (`io.emit`), not only to the
  viewers of the departing broadcaster.
- A repeated `watcher` from a bound socket gets no `watcher-accepted` reply.
- A second `disconnect` is not silent: it publishes the roster again.

## Model

| member | source | states |
|---|---|---|
| `OrderedSet.Add` | server.js:62 | `Set.add` adds exactly the new member, keeps the set duplicate-free and leaves the existing insertion order as a prefix |
| `OrderedSet.Delete` | server.js:115 | `Set.delete` removes exactly that member, keeps the others and keeps the set duplicate-free; deleting an absent member changes nothing |
| `OrderedSet.DeleteAt` | server.js:114-117 | deleting the member at position i of a duplicate-free roster closes the gap and keeps the others in insertion order |
| `OrderedSet.DeleteUndoesAdd` | server.js:62 | deleting a member that was just added to a set lacking it gives the original sequence back |
| `OrderedSet.AddIdempotent` | server.js:62 | adding a present member, or adding twice, is the same as adding once |
| `Protocol.StreamsWithout` | server.js:134-138 | the sweep's result: exactly the bindings whose socket is not the departing one, with their values unchanged |
| `Protocol.OnLoginUserId` | server.js:57-59 | no contract of its own; specified by `Properties.LoginUserIdRecords` and `Properties.LoginGatesStartStream` |
| `Protocol.OnBroadcaster` | server.js:61-64 | no contract of its own; specified by `Properties.BroadcasterAddsOnce` and `Properties.BroadcasterIdempotent` |
| `Protocol.OnWatcherReady` | server.js:66-68 | no contract of its own; specified by `Properties.WatcherReadyReadsOnly` |
| `Protocol.OnWatcher` | server.js:70-79 | no contract of its own; specified by `Properties.RepeatWatcherIsNoop`, `Properties.WatcherOnLiveStream`, `Properties.WatcherOnUnknownStream` and `Properties.FirstWatchWins` |
| `Protocol.OnRelay` | server.js:81-91 | no contract of its own; specified by `Properties.RelayForwardsUnchanged` |
| `Protocol.OnStartStream` | server.js:93-109 | no contract of its own; specified by `Properties.StartStreamWithoutUser`, `Properties.StartStreamInsertFailed` and `Properties.StartStreamInserted` |
| `Protocol.OnDisconnect` | server.js:111-142 | no contract of its own; specified by `Properties.DisconnectCleansUp`, `Properties.DisconnectKeepsOthers`, `Properties.DisconnectMessages` and `Properties.DisconnectTwice` |
| `Protocol.DepartureNotices` | server.js:114-123 | no contract of its own; the notices `Properties.DisconnectMessages` describes |
| `Protocol.DepartureCalls` | server.js:125-132 | no contract of its own; the UPDATE `Properties.DisconnectMessages` describes |
| `Protocol.Handle` | server.js:54-142 | no contract of its own; the event dispatch that `Properties.HandlePreservesInv` is about |
| `Protocol.Run` | server.js:47-142 | no contract of its own; the events handled one at a time from a state, as `Properties.RunPreservesInv` and `Properties.RunThen` state |
| `Properties.LoginUserIdRecords` | server.js:57-59 | `login-user-id` records the value, even a falsy one, for that socket only; every other socket keeps its entry or its lack of one; nothing else changes and nothing is emitted |
| `Properties.LoginGatesStartStream` | server.js:57-59 | after a falsy login, `start-stream` does nothing; after a truthy one, the INSERT carries that user id |
| `Properties.BroadcasterAddsOnce` | server.js:61-64 | `broadcaster` adds the socket at most once and keeps the earlier insertion order; the other maps are unchanged; exactly one `broadcaster-list` with the new roster goes to everyone |
| `Properties.BroadcasterIdempotent` | server.js:61-64 | announcing `broadcaster` twice leaves the same registry as announcing it once |
| `Properties.WatcherReadyReadsOnly` | server.js:66-68 | `watcher-ready` changes no state and sends the current roster only to the requester |
| `Properties.RepeatWatcherIsNoop` | server.js:70-71 | `watcher` from a socket that already has a `viewers` entry changes nothing and emits nothing, not even `watcher-accepted` |
| `Properties.WatcherOnLiveStream` | server.js:73-78 | `watcher` for a bound stream binds the viewer to that broadcaster, sends that broadcaster exactly one `watcher` with the viewer id, then acks the requester with the stream id |
| `Properties.WatcherOnUnknownStream` | server.js:73-78 | `watcher` for an unbound stream leaves `viewers` unchanged, notifies no broadcaster and still acks the requester |
| `Properties.HandleKeepsViewer` | server.js:54-142 | any event other than the viewer's own `disconnect` leaves its binding as it was |
| `Properties.ViewerBindingPersists` | server.js:54-142 | over any run of events without the viewer's own `disconnect`, it stays bound to the same broadcaster |
| `Properties.FirstWatchWins` | server.js:70-78 | once a viewer is bound, it stays bound to that broadcaster through any later events until it disconnects, and a later `watcher` from it, whatever stream it names, changes nothing |
| `Properties.RelayForwardsUnchanged` | server.js:81-91 | `offer`/`answer`/`candidate` change no structure and emit one message, to the named target, carrying the sender's id and the payload unmodified |
| `Properties.StartStreamWithoutUser` | server.js:93-95 | with no entry or a falsy entry in `activeUsers`, `start-stream` changes nothing, emits nothing and issues no INSERT |
| `Properties.StartStreamInsertFailed` | server.js:97-108 | when the INSERT fails, the registry is unchanged and nothing is emitted |
| `Properties.StartStreamInserted` | server.js:97-105 | a successful INSERT binds the new stream id to the socket and leaves the other bindings alone; the socket becomes a broadcaster once, after the existing roster; viewers and users are unchanged; the new roster goes to everyone |
| `Properties.DisconnectCleansUp` | server.js:111-141 | after `disconnect` of S, S is not in `broadcasters`, not a key of `viewers`, not the value of any `streamSocketMap` entry and not a key of `activeUsers` |
| `Properties.DisconnectKeepsOthers` | server.js:114-140 | `disconnect` of S leaves every other socket's entries as they were, including viewers still bound to S; no stream binding appears; the roster keeps its order minus S, and is untouched when S was not a broadcaster |
| `Properties.DisconnectMessages` | server.js:114-141 | `broadcaster-disconnected` goes to everyone iff S was a broadcaster, and then it comes first; `viewer-disconnected` goes to S's broadcaster iff S was a viewer; the roster without S comes last; the UPDATE is issued iff S had a truthy user id |
| `Properties.DisconnectTwice` | server.js:111-142 | a second `disconnect` of S changes nothing, emits only the roster and issues no UPDATE |
| `Properties.DisconnectPreservesInv` | server.js:114-140 | `disconnect` keeps the invariant: the roster has no duplicates and every stream binding points at a current broadcaster |
| `Properties.HandlePreservesInv` | server.js:54-142 | every event handler keeps that invariant |
| `Properties.RunPreservesInv` | server.js:47-142 | any sequence of events, each handled to completion, keeps the invariant |
| `Properties.ReachableStatesKeepInv` | server.js:47-51 | every state reached from the empty structures at process start satisfies the invariant |
| `Properties.RunThen` | server.js:47-142 | handling a list of events and then one more is handling that one in the state the list reached |
| `Properties.HandleKeepsBinding` | server.js:54-142 | an event other than the serving socket's `disconnect` or a new insert with the same id leaves a stream resolving to its socket |
| `Properties.BindingPersists` | server.js:54-142 | over any run of such events, a stream keeps resolving to the socket that serves it |
| `Properties.StreamResolvesUntilDisconnect` | server.js:102-138 | after a successful `start-stream`, the new stream id resolves to the socket through any later events until that socket disconnects (and no insert reuses the id); after the disconnect it resolves to nothing |
| `Properties.ViewerOutlivesBroadcaster` | server.js:114-123 | "every viewer is bound to a current broadcaster" is not kept: from process start, b starts stream 1, v watches it, b disconnects, and v is still bound to b |
| `Properties.OneSocketManyStreams` | server.js:102-104 | for every state where the socket has a truthy user id, two successful `start-stream`s with different ids leave both ids bound to it |
| `Properties.ChessSession` | server.js:57-141 | a complete session: stream 7 starts; a viewer is bound and its broadcaster is told; an offer is relayed untouched; on disconnect everyone is told, the roster is empty, the UPDATE is issued and stream 7 no longer resolves |
| `Server.Registry.constructor` | server.js:47-51 | the four structures start empty and the invariant holds |
| `Server.Registry.LoginUserId` | server.js:57-59 | performs `Protocol.OnLoginUserId` in place and keeps the invariant; the stream key order is unchanged |
| `Server.Registry.Broadcaster` | server.js:61-64 | performs `Protocol.OnBroadcaster` in place: the socket is in the set and the emitted roster is the new set; the stream key order is unchanged |
| `Server.Registry.WatcherReady` | server.js:66-68 | performs `Protocol.OnWatcherReady`; the four structures are unchanged; the stream key order is unchanged |
| `Server.Registry.Watcher` | server.js:70-79 | performs `Protocol.OnWatcher`; for an already-bound socket nothing changes and nothing is emitted; the stream key order is unchanged |
| `Server.Registry.Relay` | server.js:81-91 | performs `Protocol.OnRelay`; the four structures are unchanged; the stream key order is unchanged |
| `Server.Registry.StartStream` | server.js:93-109 | performs `Protocol.OnStartStream` for the given INSERT outcome and keeps the invariant; a new stream id joins the end of the key order |
| `Server.Registry.Disconnect` | server.js:111-142 | performs `Protocol.OnDisconnect` by running the blocks below in order, and keeps the invariant; the surviving stream keys keep their order |
| `Server.Registry.RemoveBroadcaster` | server.js:114-117 | a broadcaster leaves the set and `broadcaster-disconnected` goes to everyone; otherwise nothing happens |
| `Server.Registry.UnbindViewer` | server.js:119-123 | a viewer tells its broadcaster `viewer-disconnected` and loses its binding; otherwise nothing happens |
| `Server.Registry.EndUserStreams` | server.js:125-132 | the UPDATE is issued for the socket's user exactly when that user id is truthy |
| `Server.Registry.UnbindStreamsOf` | server.js:134-138 | the delete-while-iterating loop leaves exactly `Protocol.StreamsWithout` of the original map; the surviving keys keep their relative order, duplicate-free and matching the map |
| `Server.Registry.VisitEntry` | server.js:135-137 | one turn of the sweep: the entry visited leaves the map and the key order exactly when it points at the departing socket; everything not yet visited is untouched |
| `Server.KeysOutsideStep` | server.js:134-138 | visiting one entry of the sweep drops it from the key order exactly when it points at the departing socket, closing the gap |

## Left out

- The HTTP routes (`/login`, `/session-user`, `/logout`, `/upload-thumbnail`, `/post`, `/live-streams`, `/chats`, `/signup`, `/search-stream`) are SQL reads and writes through the database pool with no in-memory state. They are not part of this model.
- The database pool, multer's disk storage with its timestamp file names, logging and `server.listen` are I/O. They are not modelled. The two statements the socket handlers send are recorded as `StoreCall` values. The INSERT's result is a parameter.
- socket.io delivery is not modelled. `io.emit`, `io.to(id).emit` and `socket.emit` become `Msg` records with the recipients `Everyone`, `Room(id)` and `Requester(id)`. A message for a socket that has gone is silently dropped by socket.io; the model does not represent that drop.
- The `connection` event itself only logs, so it has no step.
- Interleaving at the two `await`s (the INSERT of `start-stream` and the UPDATE of `disconnect`) is left out: each handler is one atomic step. If another event ran during an `await`, a stream could be bound to a socket that has already disconnected. So the invariant is proved only for atomic handlers.
- JavaScript `Map` key equality across types is not modelled. A numeric `insertId` and a string stream id sent by a client are different keys in the source; here stream ids are one type.
- Only the truthiness of user ids is kept: all falsy values become `None`.
- A `start-stream` whose payload is missing would throw when it is destructured, before any state changes. The model always receives a title and a thumbnail.

/**
 * The connection registry and signaling relay of the streaming server, as
 * pure functions. Each socket event becomes one atomic step from a registry
 * state to the next one, together with the messages the step emits and the
 * calls it makes to the stream database.
 */
module Protocol {
  import opened OrderedSet

  datatype Option<T> = None | Some(value: T)

  /** A socket.io connection id. socket.io mints non-empty strings, so every
      socket id is truthy in JavaScript. */
  type SocketId = s: string | |s| > 0 witness "s"

  /** A stream row's id, issued by the database on insert and sent back by
      viewers. Treated as opaque: no string/number coercion is modelled. */
  type StreamId = int

  /** A truthy user id announced by the client over the socket. A falsy value
      (the empty string among them) is recorded as None in `activeUsers`. */
  type UserId = u: string | |u| > 0 witness "u"

  /** An SDP description or ICE candidate, relayed without inspection. */
  type Payload = string

  /** The three negotiation events the relay forwards. */
  datatype SignalKind = Offer | Answer | Candidate

  /** Who receives an emitted message. */
  datatype Recipient =
    | Everyone                 // io.emit
    | Room(name: string)       // io.to(name).emit
    | Requester(id: SocketId)  // socket.emit, back to the socket that raised the event

  /** The outbound events and their payloads. */
  datatype Message =
    | BroadcasterList(ids: seq<SocketId>)     // 'broadcaster-list'
    | WatcherJoined(viewer: SocketId)         // 'watcher'
    | WatcherAccepted(streamId: StreamId)     // 'watcher-accepted', { streamId }
    | Signal(kind: SignalKind, from: SocketId, message: Payload)
    | BroadcasterDisconnected(id: SocketId)   // 'broadcaster-disconnected'
    | ViewerDisconnected(id: SocketId)        // 'viewer-disconnected'

  datatype Msg = Msg(to: Recipient, body: Message)

  /** The statements the server sends to the stream database. */
  datatype StoreCall =
    | InsertStream(user: UserId, title: string, thumbnail: string)  // INSERT INTO streams ... is_live = 1
    | EndLiveStreams(user: UserId)                                  // UPDATE streams SET is_live = 0 ...

  /** What the INSERT of start-stream came back with. */
  datatype InsertOutcome = InsertFailed | Inserted(streamId: StreamId)

  /** The inbound socket events, with their payloads. */
  datatype Request =
    | LoginUserId(userId: Option<UserId>)       // None: a falsy value was sent
    | Broadcaster
    | WatcherReady
    | Watcher(streamId: StreamId)
    | Relay(kind: SignalKind, target: string, message: Payload)
    | StartStream(title: string, thumbnail: string, insert: InsertOutcome)
    | Disconnect

  /**
   * The four runtime structures. `activeUsers` keeps whatever the client sent,
   * so an entry may hold a falsy value (None); `broadcasters` is a JavaScript
   * `Set` in insertion order.
   */
  datatype State = State(
    broadcasters: seq<SocketId>,
    viewers: map<SocketId, SocketId>,
    activeUsers: map<SocketId, Option<UserId>>,
    streamSocketMap: map<StreamId, SocketId>)

  /** All four structures empty, as at process start. */
  const Empty: State := State([], map[], map[], map[])

  /** The outcome of one event: the next state, what was emitted, what was asked of the database. */
  datatype Step = Step(next: State, sent: seq<Msg>, calls: seq<StoreCall>)

  /**
   * What every handler keeps true: the broadcaster set has no duplicates, and
   * every stream binding points at a current broadcaster.
   */
  predicate Inv(s: State) {
    && NoDuplicates(s.broadcasters)
    && forall id :: id in s.streamSocketMap ==> s.streamSocketMap[id] in s.broadcasters
  }

  /** `activeUsers.get(socket.id)` followed by a truthiness test. */
  function UserOf(users: map<SocketId, Option<UserId>>, socket: SocketId): Option<UserId> {
    if socket in users then users[socket] else None
  }

  /** `streamSocketMap.get(streamId)`; a socket id found there is always truthy. */
  function Lookup(streams: map<StreamId, SocketId>, streamId: StreamId): Option<SocketId> {
    if streamId in streams then Some(streams[streamId]) else None
  }

  /** The stream bindings that do not point at `socket`. */
  function StreamsWithout(streams: map<StreamId, SocketId>, socket: SocketId): (r: map<StreamId, SocketId>)
    ensures forall id :: id in r <==> id in streams && streams[id] != socket
    ensures forall id :: id in r ==> r[id] == streams[id]
  {
    map id | id in streams && streams[id] != socket :: streams[id]
  }

  /** The full roster, sent to every client. */
  function Roster(s: State): Msg {
    Msg(Everyone, BroadcasterList(s.broadcasters))
  }

  // ---------------------------------------------------------------------------
  // One function per handler of the socket 'connection' callback.

  /** 'login-user-id': remember the announced id, even a falsy one. */
  function OnLoginUserId(s: State, socket: SocketId, userId: Option<UserId>): Step {
    Step(s.(activeUsers := s.activeUsers[socket := userId]), [], [])
  }

  /** 'broadcaster': join the broadcaster set and publish the roster to everyone. */
  function OnBroadcaster(s: State, socket: SocketId): Step {
    var next := s.(broadcasters := Add(s.broadcasters, socket));
    Step(next, [Roster(next)], [])
  }

  /** 'watcher-ready': send the roster back to the requester only. */
  function OnWatcherReady(s: State, socket: SocketId): Step {
    Step(s, [Msg(Requester(socket), BroadcasterList(s.broadcasters))], [])
  }

  /**
   * 'watcher': a socket that already watches is ignored outright. Otherwise a
   * live stream binds the viewer and tells the broadcaster; live or not, the
   * requester is acknowledged.
   */
  function OnWatcher(s: State, socket: SocketId, streamId: StreamId): Step {
    if socket in s.viewers then Step(s, [], [])
    else
      var ack := Msg(Requester(socket), WatcherAccepted(streamId));
      match Lookup(s.streamSocketMap, streamId)
      case Some(b) =>
        Step(s.(viewers := s.viewers[socket := b]), [Msg(Room(b), WatcherJoined(socket)), ack], [])
      case None =>
        Step(s, [ack], [])
  }

  /** 'offer', 'answer', 'candidate': forward to the named target with the sender's id. */
  function OnRelay(s: State, socket: SocketId, kind: SignalKind, target: string, message: Payload): Step {
    Step(s, [Msg(Room(target), Signal(kind, socket, message))], [])
  }

  /**
   * 'start-stream': needs a truthy user id; then the stream row is inserted,
   * and only if that succeeds is the new stream bound to the socket, the
   * socket made a broadcaster and the roster published.
   */
  function OnStartStream(s: State, socket: SocketId, title: string, thumbnail: string, insert: InsertOutcome): Step {
    match UserOf(s.activeUsers, socket)
    case None => Step(s, [], [])
    case Some(user) =>
      var call := [InsertStream(user, title, thumbnail)];
      match insert
      case InsertFailed => Step(s, [], call)
      case Inserted(streamId) =>
        var next := s.(streamSocketMap := s.streamSocketMap[streamId := socket],
                       broadcasters := Add(s.broadcasters, socket));
        Step(next, [Roster(next)], call)
  }

  /**
   * 'disconnect': leave the broadcaster set (telling everyone), leave the
   * viewer map (telling the watched broadcaster), end the user's live streams
   * in the database, drop the socket's stream bindings and its user, and
   * publish the roster. Viewers bound to this socket keep their entries.
   */
  function OnDisconnect(s: State, socket: SocketId): Step {
    var next := State(
      Delete(s.broadcasters, socket),
      s.viewers - {socket},
      s.activeUsers - {socket},
      StreamsWithout(s.streamSocketMap, socket));
    Step(next, DepartureNotices(s, socket) + [Roster(next)], DepartureCalls(s, socket))
  }

  /** What 'disconnect' emits before the final roster: 'broadcaster-disconnected'
      to everyone for a broadcaster, then 'viewer-disconnected' to the watched
      broadcaster for a viewer. */
  function DepartureNotices(s: State, socket: SocketId): seq<Msg> {
    (if socket in s.broadcasters then [Msg(Everyone, BroadcasterDisconnected(socket))] else [])
    + (if socket in s.viewers then [Msg(Room(s.viewers[socket]), ViewerDisconnected(socket))] else [])
  }

  /** The UPDATE that 'disconnect' sends for a socket with a truthy user id. */
  function DepartureCalls(s: State, socket: SocketId): seq<StoreCall> {
    match UserOf(s.activeUsers, socket)
    case Some(user) => [EndLiveStreams(user)]
    case None => []
  }

  /** Dispatch one inbound event from `socket`. */
  function Handle(s: State, socket: SocketId, r: Request): Step {
    match r
    case LoginUserId(userId) => OnLoginUserId(s, socket, userId)
    case Broadcaster => OnBroadcaster(s, socket)
    case WatcherReady => OnWatcherReady(s, socket)
    case Watcher(streamId) => OnWatcher(s, socket, streamId)
    case Relay(kind, target, message) => OnRelay(s, socket, kind, target, message)
    case StartStream(title, thumbnail, insert) => OnStartStream(s, socket, title, thumbnail, insert)
    case Disconnect => OnDisconnect(s, socket)
  }

  /** The registry after a sequence of events, each handled to completion before the next. */
  function Run(s: State, events: seq<(SocketId, Request)>): State
    decreases |events|
  {
    if events == [] then s else Run(Handle(s, events[0].0, events[0].1).next, events[1..])
  }
}

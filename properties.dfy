/**
 * What the handlers promise, stated over the functional model of the
 * registry: what each event changes and emits, what it leaves alone, the
 * invariant every event keeps, and what disconnect cleans up (and does not).
 */
module Properties {
  import opened OrderedSet
  import opened Protocol

  // ---------------------------------------------------------------------------
  // login-user-id

  /** 'login-user-id' records the announced value for the socket, even a
      falsy one, and changes and emits nothing else. */
  lemma LoginUserIdRecords(s: State, socket: SocketId, userId: Option<UserId>)
    ensures var st := OnLoginUserId(s, socket, userId);
      && socket in st.next.activeUsers
      && UserOf(st.next.activeUsers, socket) == userId
      && (forall t :: t != socket ==> UserOf(st.next.activeUsers, t) == UserOf(s.activeUsers, t))
      && (forall t :: t != socket ==> (t in st.next.activeUsers <==> t in s.activeUsers))
      && st.next.broadcasters == s.broadcasters
      && st.next.viewers == s.viewers
      && st.next.streamSocketMap == s.streamSocketMap
      && st.sent == [] && st.calls == []
  {
  }

  /** The truthiness test of 'start-stream' in action: after a falsy
      'login-user-id' the socket cannot start a stream, after a truthy one the
      INSERT carries that user id. */
  lemma {:induction false} LoginGatesStartStream(s: State, socket: SocketId, userId: Option<UserId>,
                                                 title: string, thumbnail: string, insert: InsertOutcome)
    ensures var st := OnStartStream(OnLoginUserId(s, socket, userId).next, socket, title, thumbnail, insert);
      && (userId.None? ==> st.next == OnLoginUserId(s, socket, userId).next && st.sent == [] && st.calls == [])
      && (userId.Some? ==> st.calls == [InsertStream(userId.value, title, thumbnail)])
  {
    var logged := OnLoginUserId(s, socket, userId).next;
    assert UserOf(logged.activeUsers, socket) == userId;
  }

  // ---------------------------------------------------------------------------
  // broadcaster, watcher-ready

  /** 'broadcaster' adds the socket at most once, touches nothing else, and
      emits exactly the new roster, in insertion order, to everyone. */
  lemma BroadcasterAddsOnce(s: State, socket: SocketId)
    requires Inv(s)
    ensures var st := OnBroadcaster(s, socket);
      && NoDuplicates(st.next.broadcasters)
      && (forall b :: b in st.next.broadcasters <==> b in s.broadcasters || b == socket)
      && st.next.broadcasters[..|s.broadcasters|] == s.broadcasters
      && (socket in s.broadcasters ==> st.next == s)
      && st.next.viewers == s.viewers
      && st.next.activeUsers == s.activeUsers
      && st.next.streamSocketMap == s.streamSocketMap
      && st.sent == [Msg(Everyone, BroadcasterList(st.next.broadcasters))]
      && st.calls == []
  {
  }

  /** Announcing twice is announcing once. */
  lemma {:induction false} BroadcasterIdempotent(s: State, socket: SocketId)
    ensures var once := OnBroadcaster(s, socket).next;
      OnBroadcaster(once, socket).next == once
  {
    AddIdempotent(s.broadcasters, socket);
  }

  /** 'watcher-ready' changes nothing and sends the current roster to the requester alone. */
  lemma WatcherReadyReadsOnly(s: State, socket: SocketId)
    ensures OnWatcherReady(s, socket).next == s
    ensures OnWatcherReady(s, socket).sent == [Msg(Requester(socket), BroadcasterList(s.broadcasters))]
    ensures OnWatcherReady(s, socket).calls == []
  {
  }

  // ---------------------------------------------------------------------------
  // watcher

  /** A second 'watcher' from a bound socket is a complete no-op: the binding
      stays and not even 'watcher-accepted' is sent. */
  lemma RepeatWatcherIsNoop(s: State, socket: SocketId, streamId: StreamId)
    requires socket in s.viewers
    ensures OnWatcher(s, socket, streamId) == Step(s, [], [])
  {
  }

  /** 'watcher' on a live stream binds the viewer to that stream's broadcaster,
      sends that broadcaster exactly one 'watcher' carrying the viewer id, and
      acknowledges the requester with the stream id. */
  lemma WatcherOnLiveStream(s: State, socket: SocketId, streamId: StreamId)
    requires socket !in s.viewers && streamId in s.streamSocketMap
    ensures var b := s.streamSocketMap[streamId];
      var st := OnWatcher(s, socket, streamId);
      && st.next == s.(viewers := s.viewers[socket := b])
      && st.sent == [Msg(Room(b), WatcherJoined(socket)), Msg(Requester(socket), WatcherAccepted(streamId))]
      && st.calls == []
  {
  }

  /** 'watcher' on a stream nobody serves binds nothing, notifies no
      broadcaster and still acknowledges the requester. */
  lemma WatcherOnUnknownStream(s: State, socket: SocketId, streamId: StreamId)
    requires socket !in s.viewers && streamId !in s.streamSocketMap
    ensures OnWatcher(s, socket, streamId) == Step(s, [Msg(Requester(socket), WatcherAccepted(streamId))], [])
  {
  }

  /** Any event but the viewer's own disconnect leaves its binding as it was. */
  lemma HandleKeepsViewer(s: State, t: SocketId, r: Request, v: SocketId)
    requires v in s.viewers && (t, r) != (v, Disconnect)
    ensures v in Handle(s, t, r).next.viewers && Handle(s, t, r).next.viewers[v] == s.viewers[v]
  {
  }

  /** A viewer stays bound to the same broadcaster over any run of events that
      does not contain its own disconnect. */
  lemma {:induction false} ViewerBindingPersists(s: State, events: seq<(SocketId, Request)>, v: SocketId)
    requires v in s.viewers
    requires forall k :: 0 <= k < |events| ==> events[k] != (v, Disconnect)
    ensures v in Run(s, events).viewers && Run(s, events).viewers[v] == s.viewers[v]
    decreases |events|
  {
    if events != [] {
      HandleKeepsViewer(s, events[0].0, events[0].1, v);
      assert forall k :: 0 <= k < |events[1..]| ==> events[1..][k] == events[k + 1];
      ViewerBindingPersists(Handle(s, events[0].0, events[0].1).next, events[1..], v);
    }
  }

  /** First watch wins: once bound, the viewer stays bound to that broadcaster
      through any events until it disconnects, and a later 'watcher' from it,
      whatever stream it names, changes nothing. */
  lemma {:induction false} FirstWatchWins(s: State, socket: SocketId, first: StreamId, second: StreamId,
                                          events: seq<(SocketId, Request)>)
    requires socket !in s.viewers && first in s.streamSocketMap
    requires forall k :: 0 <= k < |events| ==> events[k] != (socket, Disconnect)
    ensures var later := Run(OnWatcher(s, socket, first).next, events);
      && socket in later.viewers && later.viewers[socket] == s.streamSocketMap[first]
      && OnWatcher(later, socket, second) == Step(later, [], [])
  {
    WatcherOnLiveStream(s, socket, first);
    var bound := OnWatcher(s, socket, first).next;
    ViewerBindingPersists(bound, events, socket);
    RepeatWatcherIsNoop(Run(bound, events), socket, second);
  }

  // ---------------------------------------------------------------------------
  // offer, answer, candidate

  /** The relay changes no structure and emits one message, to the named
      target, carrying the sender's id and the payload unmodified. It does not
      check that sender and target are paired. */
  lemma RelayForwardsUnchanged(s: State, socket: SocketId, kind: SignalKind, target: string, message: Payload)
    ensures var st := OnRelay(s, socket, kind, target, message);
      && st.next == s
      && |st.sent| == 1
      && st.sent[0].to == Room(target)
      && st.sent[0].body.Signal?
      && st.sent[0].body.kind == kind
      && st.sent[0].body.from == socket
      && st.sent[0].body.message == message
      && st.calls == []
  {
  }

  // ---------------------------------------------------------------------------
  // start-stream

  /** Without a truthy user id for the socket, 'start-stream' does nothing at
      all, not even the database insert. */
  lemma StartStreamWithoutUser(s: State, socket: SocketId, title: string, thumbnail: string, insert: InsertOutcome)
    requires socket !in s.activeUsers || s.activeUsers[socket].None?
    ensures OnStartStream(s, socket, title, thumbnail, insert) == Step(s, [], [])
  {
  }

  /** A failed insert leaves the registry as it was and emits nothing. */
  lemma StartStreamInsertFailed(s: State, socket: SocketId, title: string, thumbnail: string, user: UserId)
    requires socket in s.activeUsers && s.activeUsers[socket] == Some(user)
    ensures OnStartStream(s, socket, title, thumbnail, InsertFailed)
         == Step(s, [], [InsertStream(user, title, thumbnail)])
  {
  }

  /** A successful insert binds the new stream to the socket, makes the socket
      a broadcaster (once), and publishes the new roster to everyone; viewers
      and users are untouched and every other binding stays. */
  lemma StartStreamInserted(s: State, socket: SocketId, title: string, thumbnail: string, user: UserId, streamId: StreamId)
    requires Inv(s)
    requires socket in s.activeUsers && s.activeUsers[socket] == Some(user)
    ensures var st := OnStartStream(s, socket, title, thumbnail, Inserted(streamId));
      && Lookup(st.next.streamSocketMap, streamId) == Some(socket)
      && (forall id :: id != streamId ==> Lookup(st.next.streamSocketMap, id) == Lookup(s.streamSocketMap, id))
      && socket in st.next.broadcasters
      && NoDuplicates(st.next.broadcasters)
      && (forall b :: b in st.next.broadcasters <==> b in s.broadcasters || b == socket)
      && st.next.broadcasters[..|s.broadcasters|] == s.broadcasters
      && st.next.viewers == s.viewers
      && st.next.activeUsers == s.activeUsers
      && st.sent == [Msg(Everyone, BroadcasterList(st.next.broadcasters))]
      && st.calls == [InsertStream(user, title, thumbnail)]
  {
  }

  // ---------------------------------------------------------------------------
  // disconnect

  /** After 'disconnect' of S, S is in no broadcaster set, no viewer key, no
      stream binding and no user entry. */
  lemma DisconnectCleansUp(s: State, socket: SocketId)
    ensures var n := OnDisconnect(s, socket).next;
      && socket !in n.broadcasters
      && socket !in n.viewers
      && (forall id :: id in n.streamSocketMap ==> n.streamSocketMap[id] != socket)
      && socket !in n.activeUsers
  {
  }

  /** 'disconnect' of S leaves every entry of every other socket as it was,
      including viewers that are still bound to S, and keeps the roster order. */
  lemma DisconnectKeepsOthers(s: State, socket: SocketId)
    requires Inv(s)
    ensures var n := OnDisconnect(s, socket).next;
      && (forall t :: t != socket ==> (t in n.broadcasters <==> t in s.broadcasters))
      && (forall t :: t != socket ==> (t in n.viewers <==> t in s.viewers))
      && (forall t :: t in n.viewers ==> n.viewers[t] == s.viewers[t])
      && (forall t :: t != socket ==> UserOf(n.activeUsers, t) == UserOf(s.activeUsers, t))
      && (forall t :: t != socket ==> (t in n.activeUsers <==> t in s.activeUsers))
      && (forall id :: id in s.streamSocketMap && s.streamSocketMap[id] != socket ==>
            Lookup(n.streamSocketMap, id) == Lookup(s.streamSocketMap, id))
      && (forall id :: id in n.streamSocketMap ==> id in s.streamSocketMap)
      && (socket !in s.broadcasters ==> n.broadcasters == s.broadcasters)
      && (forall i :: 0 <= i < |s.broadcasters| && s.broadcasters[i] == socket ==>
            n.broadcasters == s.broadcasters[..i] + s.broadcasters[i + 1..])
  {
    forall i | 0 <= i < |s.broadcasters| && s.broadcasters[i] == socket
      ensures Delete(s.broadcasters, socket) == s.broadcasters[..i] + s.broadcasters[i + 1..]
    {
      DeleteAt(s.broadcasters, i);
    }
  }

  /** What 'disconnect' of S emits: 'broadcaster-disconnected' to everyone
      exactly when S was a broadcaster, 'viewer-disconnected' to S's
      broadcaster exactly when S was a viewer, and always the roster last. It
      ends the user's live streams in the database exactly when S had a truthy
      user id. */
  lemma DisconnectMessages(s: State, socket: SocketId)
    ensures var st := OnDisconnect(s, socket);
      var wasBroadcaster := socket in s.broadcasters;
      var wasViewer := socket in s.viewers;
      && |st.sent| == (if wasBroadcaster then 1 else 0) + (if wasViewer then 1 else 0) + 1
      && (wasBroadcaster <==> Msg(Everyone, BroadcasterDisconnected(socket)) in st.sent)
      && (wasBroadcaster ==> st.sent[0] == Msg(Everyone, BroadcasterDisconnected(socket)))
      && (wasViewer <==> exists b :: Msg(Room(b), ViewerDisconnected(socket)) in st.sent)
      && (wasViewer ==> Msg(Room(s.viewers[socket]), ViewerDisconnected(socket)) in st.sent)
      && st.sent[|st.sent| - 1] == Msg(Everyone, BroadcasterList(st.next.broadcasters))
      && socket !in st.sent[|st.sent| - 1].body.ids
      && (st.calls != [] <==> UserOf(s.activeUsers, socket).Some?)
      && (UserOf(s.activeUsers, socket).Some? ==> st.calls == [EndLiveStreams(UserOf(s.activeUsers, socket).value)])
  {
    var st := OnDisconnect(s, socket);
    if socket in s.viewers {
      assert Msg(Room(s.viewers[socket]), ViewerDisconnected(socket)) in st.sent;
    }
  }

  /** A second 'disconnect' of the same socket changes nothing, emits only the
      roster and calls no database. */
  lemma {:induction false} DisconnectTwice(s: State, socket: SocketId)
    ensures var once := OnDisconnect(s, socket).next;
      OnDisconnect(once, socket) == Step(once, [Roster(once)], [])
  {
    var once := OnDisconnect(s, socket).next;
    DisconnectCleansUp(s, socket);
    assert once.viewers - {socket} == once.viewers;
    assert once.activeUsers - {socket} == once.activeUsers;
    assert StreamsWithout(once.streamSocketMap, socket) == once.streamSocketMap;
  }

  // ---------------------------------------------------------------------------
  // The invariant, and what is not invariant

  /** Disconnect keeps the invariant: the bindings it leaves point at
      broadcasters it leaves. */
  lemma DisconnectPreservesInv(s: State, socket: SocketId)
    requires Inv(s)
    ensures Inv(OnDisconnect(s, socket).next)
  {
    var n := OnDisconnect(s, socket).next;
    forall id | id in n.streamSocketMap ensures n.streamSocketMap[id] in n.broadcasters {
      assert s.streamSocketMap[id] in s.broadcasters;
    }
  }

  /** Every handler keeps the registry invariant. */
  lemma {:induction false} HandlePreservesInv(s: State, socket: SocketId, r: Request)
    requires Inv(s)
    ensures Inv(Handle(s, socket, r).next)
  {
    match r
    case Disconnect => DisconnectPreservesInv(s, socket);
    case _ =>
  }

  /** Every state reachable from process start by handling events one at a
      time satisfies the invariant. */
  lemma {:induction false} RunPreservesInv(s: State, events: seq<(SocketId, Request)>)
    requires Inv(s)
    ensures Inv(Run(s, events))
    decreases |events|
  {
    if events != [] {
      HandlePreservesInv(s, events[0].0, events[0].1);
      RunPreservesInv(Handle(s, events[0].0, events[0].1).next, events[1..]);
    }
  }

  /** In particular every state the server reaches from process start keeps it. */
  lemma {:induction false} ReachableStatesKeepInv(events: seq<(SocketId, Request)>)
    ensures Inv(Run(Empty, events))
  {
    RunPreservesInv(Empty, events);
  }

  // ---------------------------------------------------------------------------
  // Stream lookup over time

  /** Handling the events one after the other, then one more, is handling that
      one more in the state the others reached. */
  lemma {:induction false} RunThen(s: State, events: seq<(SocketId, Request)>, e: (SocketId, Request))
    ensures Run(s, events + [e]) == Handle(Run(s, events), e.0, e.1).next
    decreases |events|
  {
    if events == [] {
      assert events + [e] == [e] && [e][1..] == [];
    } else {
      assert (events + [e])[0] == events[0];
      assert (events + [e])[1..] == events[1..] + [e];
      RunThen(Handle(s, events[0].0, events[0].1).next, events[1..], e);
    }
  }

  /** The events that can take stream `id` away from `socket`: that socket's
      own disconnect, or an insert that the database numbers `id` again. */
  predicate Unbinds(e: (SocketId, Request), socket: SocketId, id: StreamId) {
    || (e.0 == socket && e.1.Disconnect?)
    || (e.1.StartStream? && e.1.insert == Inserted(id))
  }

  /** Any other event leaves a stream resolving to the socket that serves it. */
  lemma HandleKeepsBinding(s: State, t: SocketId, r: Request, socket: SocketId, id: StreamId)
    requires Lookup(s.streamSocketMap, id) == Some(socket)
    requires !Unbinds((t, r), socket, id)
    ensures Lookup(Handle(s, t, r).next.streamSocketMap, id) == Some(socket)
  {
  }

  /** A stream keeps resolving to its socket over any run of events none of
      which unbinds it. */
  lemma {:induction false} BindingPersists(s: State, events: seq<(SocketId, Request)>, socket: SocketId, id: StreamId)
    requires Lookup(s.streamSocketMap, id) == Some(socket)
    requires forall k :: 0 <= k < |events| ==> !Unbinds(events[k], socket, id)
    ensures Lookup(Run(s, events).streamSocketMap, id) == Some(socket)
    decreases |events|
  {
    if events != [] {
      HandleKeepsBinding(s, events[0].0, events[0].1, socket, id);
      assert forall k :: 0 <= k < |events[1..]| ==> events[1..][k] == events[k + 1];
      BindingPersists(Handle(s, events[0].0, events[0].1).next, events[1..], socket, id);
    }
  }

  /** Stream lookup after start-stream: the new stream resolves to its
      broadcaster through any events until that broadcaster disconnects, and
      resolves to nothing once it has. */
  lemma {:induction false} StreamResolvesUntilDisconnect(s: State, socket: SocketId, title: string, thumbnail: string,
                                                         streamId: StreamId, events: seq<(SocketId, Request)>)
    requires UserOf(s.activeUsers, socket).Some?
    requires forall k :: 0 <= k < |events| ==> !Unbinds(events[k], socket, streamId)
    ensures var started := OnStartStream(s, socket, title, thumbnail, Inserted(streamId)).next;
      && Lookup(Run(started, events).streamSocketMap, streamId) == Some(socket)
      && Lookup(Run(started, events + [(socket, Disconnect)]).streamSocketMap, streamId) == None
  {
    var started := OnStartStream(s, socket, title, thumbnail, Inserted(streamId)).next;
    assert started.streamSocketMap[streamId] == socket;
    BindingPersists(started, events, socket, streamId);
    RunThen(started, events, (socket, Disconnect));
    DisconnectCleansUp(Run(started, events), socket);
  }

  // ---------------------------------------------------------------------------
  // What is not invariant

  /** "Every viewer is bound to a current broadcaster" is NOT kept. From
      process start: b logs in and starts stream 1, v watches it, b leaves;
      v is still bound to b, which is no longer a broadcaster. */
  lemma ViewerOutlivesBroadcaster()
    ensures var b: SocketId, v: SocketId := "b", "v";
      var watching := [(b, LoginUserId(Some("u"))), (b, StartStream("t", "i", Inserted(1))), (v, Watcher(1))];
      var before := Run(Empty, watching);
      var after := Run(Empty, watching + [(b, Disconnect)]);
      && before.broadcasters == [b] && before.viewers == map[v := b]
      && b !in after.broadcasters && after.viewers == map[v := b]
  {
    var b: SocketId, v: SocketId := "b", "v";
    var watching := [(b, LoginUserId(Some("u"))), (b, StartStream("t", "i", Inserted(1))), (v, Watcher(1))];
    WatchingReached();
    RunThen(Empty, watching, (b, Disconnect));
    WatchedBroadcasterLeaves();
  }

  /** The state the scenario of ViewerOutlivesBroadcaster reaches before b leaves. */
  lemma WatchingReached()
    ensures var b: SocketId, v: SocketId := "b", "v";
      Run(Empty, [(b, LoginUserId(Some("u"))), (b, StartStream("t", "i", Inserted(1))), (v, Watcher(1))])
        == State([b], map[v := b], map[b := Some("u")], map[1 := b])
  {
    var b: SocketId, v: SocketId := "b", "v";
    var watching := [(b, LoginUserId(Some("u"))), (b, StartStream("t", "i", Inserted(1))), (v, Watcher(1))];
    var s1 := State([], map[], map[b := Some("u")], map[]);
    var s2 := State([b], map[], map[b := Some("u")], map[1 := b]);
    var s3 := State([b], map[v := b], map[b := Some("u")], map[1 := b]);
    assert Handle(Empty, b, LoginUserId(Some("u"))).next == s1;
    assert Handle(s1, b, StartStream("t", "i", Inserted(1))).next == s2;
    assert Handle(s2, v, Watcher(1)).next == s3;
    assert watching[1..] == [(b, StartStream("t", "i", Inserted(1))), (v, Watcher(1))];
    assert watching[1..][1..] == [(v, Watcher(1))];
    assert Run(Empty, watching) == Run(s1, watching[1..]) == Run(s2, watching[1..][1..]) == Run(s3, []);
  }

  /** b's disconnect in that scenario: b is gone, v's binding to it is not. */
  lemma WatchedBroadcasterLeaves()
    ensures var b: SocketId, v: SocketId := "b", "v";
      Handle(State([b], map[v := b], map[b := Some("u")], map[1 := b]), b, Disconnect).next
        == State([], map[v := b], map[], map[])
  {
    var b: SocketId, v: SocketId := "b", "v";
    var s3 := State([b], map[v := b], map[b := Some("u")], map[1 := b]);
    assert StreamsWithout(s3.streamSocketMap, b) == map[];
    assert s3.viewers - {b} == s3.viewers;
  }

  /** One socket may serve several streams at once: two successful
      start-streams from the same logged-in socket leave both streams bound to it. */
  lemma OneSocketManyStreams(s: State, socket: SocketId, title: string, thumbnail: string, a: StreamId, b: StreamId)
    requires UserOf(s.activeUsers, socket).Some? && a != b
    ensures var first := OnStartStream(s, socket, title, thumbnail, Inserted(a)).next;
      var n := OnStartStream(first, socket, title, thumbnail, Inserted(b)).next;
      Lookup(n.streamSocketMap, a) == Some(socket) && Lookup(n.streamSocketMap, b) == Some(socket)
  {
  }

  // ---------------------------------------------------------------------------
  // An end-to-end session

  /** Broadcaster X logs in as "alice" and starts "Chess", which the database
      stores as stream 7; viewer Y watches 7 and X offers to Y; then X leaves.
      Y is bound to X and X hears of Y; Y gets X's offer untouched; when X
      leaves everyone hears of it, the roster no longer lists X and stream 7 no
      longer resolves. */
  lemma ChessSession(p: Payload)
    ensures
      var x: SocketId, y: SocketId := "X", "Y";
      var s1 := OnLoginUserId(Empty, x, Some("alice")).next;
      var st2 := OnStartStream(s1, x, "Chess", "chess.png", Inserted(7));
      var st3 := OnWatcher(st2.next, y, 7);
      var st4 := OnRelay(st3.next, x, Offer, y, p);
      var st5 := OnDisconnect(st4.next, x);
      && st2.next.broadcasters == [x]
      && st2.sent == [Msg(Everyone, BroadcasterList([x]))]
      && st3.next.viewers == map[y := x]
      && st3.sent == [Msg(Room(x), WatcherJoined(y)), Msg(Requester(y), WatcherAccepted(7))]
      && st4.sent == [Msg(Room(y), Signal(Offer, x, p))]
      && st5.sent == [Msg(Everyone, BroadcasterDisconnected(x)), Msg(Everyone, BroadcasterList([]))]
      && st5.calls == [EndLiveStreams("alice")]
      && Lookup(st5.next.streamSocketMap, 7) == None
  {
    var x: SocketId, y: SocketId := "X", "Y";
    var s1 := OnLoginUserId(Empty, x, Some("alice")).next;
    var st2 := OnStartStream(s1, x, "Chess", "chess.png", Inserted(7));
    assert st2.next.streamSocketMap == map[7 := x];
    var st3 := OnWatcher(st2.next, y, 7);
    var st4 := OnRelay(st3.next, x, Offer, y, p);
    assert x != y;
    assert st4.next.streamSocketMap == map[7 := x];
    assert StreamsWithout(st4.next.streamSocketMap, x) == map[];
  }
}

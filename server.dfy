/**
 * The socket 'connection' handler as the server runs it: four module-level
 * structures updated in place, one method per socket event. Emitted messages
 * are appended to `outbox` and database statements to `storeCalls`; each
 * method is proved to perform exactly the step the functional model gives.
 */
module Server {
  import opened OrderedSet
  import opened Protocol
  import Properties

  class Registry {
    var broadcasters: seq<SocketId>                  // new Set()
    var viewers: map<SocketId, SocketId>             // new Map(), viewer -> broadcaster
    var activeUsers: map<SocketId, Option<UserId>>   // new Map(), socket -> user id
    var streamSocketMap: map<StreamId, SocketId>     // new Map(), stream -> broadcaster
    var streamIds: seq<StreamId>                     // its keys in insertion order, as entries() walks them
    var outbox: seq<Msg>                             // everything emitted so far, in order
    var storeCalls: seq<StoreCall>                   // every statement sent to the database, in order

    /** The four structures as a value of the functional model. */
    ghost function Snapshot(): State
      reads this`broadcasters, this`viewers, this`activeUsers, this`streamSocketMap
    {
      State(broadcasters, viewers, activeUsers, streamSocketMap)
    }

    ghost predicate Valid()
      reads this`broadcasters, this`viewers, this`activeUsers, this`streamSocketMap, this`streamIds
    {
      Inv(Snapshot()) && KeysTracked()
    }

    /** `streamIds` lists the keys of `streamSocketMap`, each once. */
    ghost predicate KeysTracked()
      reads this`streamSocketMap, this`streamIds
    {
      NoDuplicates(streamIds) && forall id :: id in streamIds <==> id in streamSocketMap
    }

    /** This call did exactly `step`: the structures are its next state and
        its messages and database calls were appended, in order. */
    twostate predicate Performed(step: Step)
      reads this
    {
      && Snapshot() == step.next
      && outbox == old(outbox) + step.sent
      && storeCalls == old(storeCalls) + step.calls
    }

    /** Process start: all four structures empty, nothing sent yet. */
    constructor ()
      ensures Valid()
      ensures Snapshot() == Empty && outbox == [] && storeCalls == []
    {
      broadcasters, viewers, activeUsers, streamSocketMap := [], map[], map[], map[];
      streamIds := [];
      outbox, storeCalls := [], [];
    }

    method LoginUserId(socket: SocketId, userId: Option<UserId>)
      requires Valid()
      modifies this
      ensures Valid()
      ensures Performed(OnLoginUserId(old(Snapshot()), socket, userId))
      ensures streamIds == old(streamIds)
    {
      activeUsers := activeUsers[socket := userId];
    }

    method Broadcaster(socket: SocketId)
      requires Valid()
      modifies this
      ensures Valid()
      ensures Performed(OnBroadcaster(old(Snapshot()), socket))
      ensures streamIds == old(streamIds)
      ensures socket in broadcasters
      ensures outbox == old(outbox) + [Msg(Everyone, BroadcasterList(broadcasters))]
    {
      broadcasters := Add(broadcasters, socket);
      outbox := outbox + [Msg(Everyone, BroadcasterList(broadcasters))];
    }

    method WatcherReady(socket: SocketId)
      requires Valid()
      modifies this
      ensures Valid()
      ensures Performed(OnWatcherReady(old(Snapshot()), socket))
      ensures streamIds == old(streamIds)
      ensures Snapshot() == old(Snapshot())
    {
      outbox := outbox + [Msg(Requester(socket), BroadcasterList(broadcasters))];
    }

    method Watcher(socket: SocketId, streamId: StreamId)
      requires Valid()
      modifies this
      ensures Valid()
      ensures Performed(OnWatcher(old(Snapshot()), socket, streamId))
      ensures streamIds == old(streamIds)
      ensures old(socket in viewers) ==> viewers == old(viewers) && outbox == old(outbox)
    {
      if socket in viewers {
        return;
      }
      var broadcasterSocketId := Lookup(streamSocketMap, streamId);
      if broadcasterSocketId.Some? {
        viewers := viewers[socket := broadcasterSocketId.value];
        outbox := outbox + [Msg(Room(broadcasterSocketId.value), WatcherJoined(socket))];
      }
      outbox := outbox + [Msg(Requester(socket), WatcherAccepted(streamId))];
    }

    /** 'offer', 'answer' and 'candidate' share this body. */
    method Relay(socket: SocketId, kind: SignalKind, target: string, message: Payload)
      requires Valid()
      modifies this
      ensures Valid()
      ensures Performed(OnRelay(old(Snapshot()), socket, kind, target, message))
      ensures streamIds == old(streamIds)
      ensures Snapshot() == old(Snapshot())
    {
      outbox := outbox + [Msg(Room(target), Signal(kind, socket, message))];
    }

    /** 'start-stream'; `insert` is what the INSERT came back with. */
    method StartStream(socket: SocketId, title: string, thumbnail: string, insert: InsertOutcome)
      requires Valid()
      modifies this
      ensures Valid()
      ensures Performed(OnStartStream(old(Snapshot()), socket, title, thumbnail, insert))
      ensures streamIds == if UserOf(old(activeUsers), socket).Some? && insert.Inserted?
                           then Add(old(streamIds), insert.streamId) else old(streamIds)
    {
      var userId := UserOf(activeUsers, socket);
      if userId.None? {
        return;
      }
      storeCalls := storeCalls + [InsertStream(userId.value, title, thumbnail)];
      match insert {
        case InsertFailed =>
        case Inserted(streamId) =>
          streamSocketMap := streamSocketMap[streamId := socket];
          streamIds := Add(streamIds, streamId);
          broadcasters := Add(broadcasters, socket);
          outbox := outbox + [Msg(Everyone, BroadcasterList(broadcasters))];
      }
      Properties.HandlePreservesInv(old(Snapshot()), socket, Request.StartStream(title, thumbnail, insert));
    }

    method Disconnect(socket: SocketId)
      requires Valid()
      modifies this
      ensures Valid()
      ensures Performed(OnDisconnect(old(Snapshot()), socket))
      ensures streamIds == KeysOutside(old(streamIds), old(streamSocketMap), socket)
    {
      ghost var s0, out0 := Snapshot(), outbox;
      RemoveBroadcaster(socket);
      ghost var out1 := outbox;
      UnbindViewer(socket);
      ghost var out2 := outbox;
      EndUserStreams(socket);
      UnbindStreamsOf(socket);
      activeUsers := activeUsers - {socket};
      outbox := outbox + [Msg(Everyone, BroadcasterList(broadcasters))];
      DisconnectComposes(s0, socket, Snapshot(), out0, out1, out2, outbox);
      Properties.DisconnectPreservesInv(s0, socket);
    }

    /** The first block of 'disconnect': a broadcaster leaves the set and
        everyone is told. */
    method RemoveBroadcaster(socket: SocketId)
      modifies this`broadcasters, this`outbox
      ensures broadcasters == Delete(old(broadcasters), socket)
      ensures outbox == old(outbox) +
        if socket in old(broadcasters) then [Msg(Everyone, BroadcasterDisconnected(socket))] else []
    {
      if socket in broadcasters {
        broadcasters := Delete(broadcasters, socket);
        outbox := outbox + [Msg(Everyone, BroadcasterDisconnected(socket))];
      }
    }

    /** The second block of 'disconnect': a viewer tells its broadcaster it
        left, and its binding goes. */
    method UnbindViewer(socket: SocketId)
      modifies this`viewers, this`outbox
      ensures viewers == old(viewers) - {socket}
      ensures outbox == old(outbox) +
        if socket in old(viewers) then [Msg(Room(old(viewers)[socket]), ViewerDisconnected(socket))] else []
    {
      if socket in viewers {
        var broadcasterId := viewers[socket];
        outbox := outbox + [Msg(Room(broadcasterId), ViewerDisconnected(socket))];
        viewers := viewers - {socket};
      }
    }

    /** The third block of 'disconnect': a socket with a truthy user id has
        that user's live streams marked ended. Whether the UPDATE succeeds
        makes no difference to the handler. */
    method EndUserStreams(socket: SocketId)
      modifies this`storeCalls
      ensures storeCalls == old(storeCalls) +
        match UserOf(activeUsers, socket) case Some(user) => [EndLiveStreams(user)] case None => []
    {
      var userId := UserOf(activeUsers, socket);
      if userId.Some? {
        storeCalls := storeCalls + [EndLiveStreams(userId.value)];
      }
    }

    /** The `for ... of streamSocketMap.entries()` sweep of 'disconnect':
        delete, while iterating, every binding that points at `socket`. */
    method UnbindStreamsOf(socket: SocketId)
      requires KeysTracked()
      modifies this`streamSocketMap, this`streamIds
      ensures KeysTracked()
      ensures streamSocketMap == StreamsWithout(old(streamSocketMap), socket)
      ensures streamIds == KeysOutside(old(streamIds), old(streamSocketMap), socket)
    {
      ghost var bound := streamSocketMap;
      var entries := streamIds;
      assert entries[0..] == entries && entries[..0] == [];
      assert forall id :: id in bound ==> id in entries;
      assert streamSocketMap == Unswept(bound, socket, entries[0..]);
      for i := 0 to |entries|
        modifies this`streamSocketMap, this`streamIds
        invariant streamSocketMap == Unswept(bound, socket, entries[i..])
        invariant streamIds == KeysOutside(entries[..i], bound, socket) + entries[i..]
        invariant KeysTracked()
      {
        VisitEntry(socket, bound, entries, i);
      }
      assert Unswept(bound, socket, entries[|entries|..]) == StreamsWithout(bound, socket);
      assert entries[..|entries|] == entries;
    }

    /** One turn of the sweep: the entry at `i` goes, from the map and from
        the key order, exactly when it points at `socket`. */
    method VisitEntry(socket: SocketId, ghost bound: map<StreamId, SocketId>, entries: seq<StreamId>, i: nat)
      requires KeysTracked() && NoDuplicates(entries) && i < |entries|
      requires streamSocketMap == Unswept(bound, socket, entries[i..])
      requires streamIds == KeysOutside(entries[..i], bound, socket) + entries[i..]
      modifies this`streamSocketMap, this`streamIds
      ensures KeysTracked()
      ensures streamSocketMap == Unswept(bound, socket, entries[i + 1..])
      ensures streamIds == KeysOutside(entries[..i + 1], bound, socket) + entries[i + 1..]
    {
      var id := entries[i];
      UnsweptStep(bound, socket, entries, i);
      KeysOutsideStep(streamIds, bound, socket, entries, i);
      if streamSocketMap[id] == socket {
        streamSocketMap := streamSocketMap - {id};
        streamIds := Delete(streamIds, id);
      }
    }
  }

  /** The bindings still standing part-way through the sweep: those not yet
      visited, and those visited that point elsewhere. */
  ghost function Unswept(bound: map<StreamId, SocketId>, socket: SocketId, rest: seq<StreamId>): map<StreamId, SocketId> {
    map id | id in bound && (id in rest || bound[id] != socket) :: bound[id]
  }

  /** The ids among `ids` whose binding does not point at `socket`, in the
      order of `ids`: what deleting the others from a `Map` leaves of its
      iteration order. */
  ghost function KeysOutside(ids: seq<StreamId>, bound: map<StreamId, SocketId>, socket: SocketId): seq<StreamId>
    decreases |ids|
  {
    if ids == [] then []
    else
      var last := ids[|ids| - 1];
      KeysOutside(ids[..|ids| - 1], bound, socket) + (if last in bound && bound[last] == socket then [] else [last])
  }

  /** Visiting the next entry takes it out of the key order exactly when it
      points at `socket`, closing the gap it leaves. */
  lemma KeysOutsideStep(ids: seq<StreamId>, bound: map<StreamId, SocketId>, socket: SocketId, entries: seq<StreamId>, i: nat)
    requires NoDuplicates(ids) && i < |entries|
    requires ids == KeysOutside(entries[..i], bound, socket) + entries[i..]
    ensures KeysOutside(entries[..i + 1], bound, socket) + entries[i + 1..]
         == if entries[i] in bound && bound[entries[i]] == socket then Delete(ids, entries[i]) else ids
  {
    var kept := KeysOutside(entries[..i], bound, socket);
    assert entries[..i + 1][..i] == entries[..i];
    assert entries[i..] == [entries[i]] + entries[i + 1..];
    if entries[i] in bound && bound[entries[i]] == socket {
      assert ids[|kept|] == entries[i] && ids[..|kept|] == kept && ids[|kept| + 1..] == entries[i + 1..];
      DeleteAt(ids, |kept|);
    }
  }

  /** Visiting the next entry removes it exactly when it points at `socket`. */
  lemma UnsweptStep(bound: map<StreamId, SocketId>, socket: SocketId, entries: seq<StreamId>, i: nat)
    requires NoDuplicates(entries) && i < |entries|
    ensures entries[i] in Unswept(bound, socket, entries[i..]) <==> entries[i] in bound
    ensures Unswept(bound, socket, entries[i + 1..])
         == if entries[i] in bound && bound[entries[i]] == socket
            then Unswept(bound, socket, entries[i..]) - {entries[i]}
            else Unswept(bound, socket, entries[i..])
  {
    assert entries[i..] == [entries[i]] + entries[i + 1..];
    assert entries[i] !in entries[i + 1..] by {
      forall k | i + 1 <= k < |entries| ensures entries[k] != entries[i] {}
    }
  }

  /** The blocks of 'disconnect', run one after the other, make up its step. */
  lemma DisconnectComposes(s0: State, socket: SocketId, s1: State,
                           out0: seq<Msg>, out1: seq<Msg>, out2: seq<Msg>, out3: seq<Msg>)
    requires s1 == State(Delete(s0.broadcasters, socket), s0.viewers - {socket},
                         s0.activeUsers - {socket}, StreamsWithout(s0.streamSocketMap, socket))
    requires out1 == out0 + if socket in s0.broadcasters then [Msg(Everyone, BroadcasterDisconnected(socket))] else []
    requires out2 == out1 + if socket in s0.viewers then [Msg(Room(s0.viewers[socket]), ViewerDisconnected(socket))] else []
    requires out3 == out2 + [Msg(Everyone, BroadcasterList(s1.broadcasters))]
    ensures s1 == OnDisconnect(s0, socket).next
    ensures out3 == out0 + OnDisconnect(s0, socket).sent
  {
    var notices := DepartureNotices(s0, socket);
    assert out2 == out0 + notices;
    assert out3 == out0 + (notices + [Roster(s1)]);
  }
}

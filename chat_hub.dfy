/** The chat delivery state (internals/chat/redis): the hub's registry of
    connected clients, the per-user Redis channels, the bounded send buffer
    of each client, and one step of each of the two pumps.  Goroutines run
    one after another here; the Redis broker is a log of publishes, the
    websocket is the frame read and the action written. */
module ChatHub {
  import opened Wrappers
  import opened GoStrings
  import opened Errors
  import Uuid
  import opened ChatRepo

  // ------------------------------------------------------------- timing

  const Second: int := 1_000_000_000
  const WriteWait: int := 10 * Second
  const PongWait: int := 60 * Second
  const PingPeriod: int := PongWait * 9 / 10

  /** The ping is sent before the peer's read deadline runs out. */
  lemma PingBeforePongDeadline()
    ensures PingPeriod == 54 * Second && 0 < PingPeriod < PongWait
  {
  }

  // ------------------------------------------------------------- channels

  const ChannelPrefix := "user:"

  /** userChannel: the Redis channel of one user. */
  function UserChannel(userId: string): (r: string)
    ensures HasPrefix(r, ChannelPrefix) && TrimPrefix(r, ChannelPrefix) == userId
  {
    ChannelPrefix + userId
  }

  /** Distinct users listen on distinct channels. */
  lemma UserChannelInjective(a: string, b: string)
    ensures UserChannel(a) == UserChannel(b) ==> a == b
  {
    if UserChannel(a) == UserChannel(b) {
      assert a == UserChannel(a)[|ChannelPrefix|..];
      assert b == UserChannel(b)[|ChannelPrefix|..];
    }
  }

  /** One PUBLISH sent to the broker. */
  datatype Publish = Publish(channel: string, payload: string)

  /** The capacity ServeWs gives every client's Send channel. */
  const SendCapacity: nat := 256

  datatype PushResult = Queued | Dropped | Panicked

  datatype Received = Got(payload: string) | ChannelClosed | Empty

  /** A buffered Go channel of payloads. */
  class SendBuffer {
    var contents: seq<string>
    const capacity: nat
    var closed: bool

    ghost predicate Valid()
      reads this
    {
      |contents| <= capacity
    }

    constructor (capacity: nat)
      ensures this.capacity == capacity && contents == [] && !closed && Valid()
    {
      this.capacity := capacity;
      contents := [];
      closed := false;
    }

    /** The select of listenToRedis: queue the payload if there is room,
        otherwise drop it.  A send on a closed channel panics in Go. */
    method TryPush(payload: string) returns (res: PushResult)
      requires Valid()
      modifies this
      ensures Valid() && closed == old(closed)
      ensures old(closed) ==> res == Panicked && contents == old(contents)
      ensures !old(closed) && |old(contents)| < capacity ==> res == Queued && contents == old(contents) + [payload]
      ensures !old(closed) && |old(contents)| >= capacity ==> res == Dropped && contents == old(contents)
    {
      if closed {
        return Panicked;
      }
      if |contents| < capacity {
        contents := contents + [payload];
        return Queued;
      }
      return Dropped;
    }

    /** `payload, ok := <-Send`: queued payloads come out first, even after
        the channel was closed. */
    method Receive() returns (r: Received)
      requires Valid()
      modifies this
      ensures Valid() && closed == old(closed)
      ensures old(contents) != [] ==> r == Got(old(contents)[0]) && contents == old(contents)[1..]
      ensures old(contents) == [] ==> contents == [] && r == if closed then ChannelClosed else Empty
    {
      if contents != [] {
        r := Got(contents[0]);
        contents := contents[1..];
      } else if closed {
        r := ChannelClosed;
      } else {
        r := Empty;
      }
    }

    /** close(Send); closing it a second time would panic. */
    method Close()
      requires !closed
      modifies this
      ensures closed && contents == old(contents)
    {
      closed := true;
    }
  }

  /** The forwarding loop of listenToRedis over the payloads the broker
      delivers, with nobody draining the buffer meanwhile: payloads are
      queued in arrival order until the buffer is full, and the rest are
      dropped. */
  method Forward(send: SendBuffer, incoming: seq<string>) returns (dropped: nat)
    requires send.Valid() && !send.closed
    modifies send
    ensures send.Valid() && !send.closed
    ensures var room := send.capacity - |old(send.contents)|;
            var taken := if |incoming| < room then |incoming| else room;
            send.contents == old(send.contents) + incoming[..taken] && dropped == |incoming| - taken
  {
    dropped := 0;
    var i := 0;
    while i < |incoming|
      invariant 0 <= i <= |incoming|
      invariant send.Valid() && !send.closed
      invariant var room := send.capacity - |old(send.contents)|;
                var taken := if i < room then i else room;
                send.contents == old(send.contents) + incoming[..taken] && dropped == i - taken
    {
      var res := send.TryPush(incoming[i]);
      if res == Dropped {
        dropped := dropped + 1;
      }
      assert incoming[..i + 1] == incoming[..i] + [incoming[i]];
      i := i + 1;
    }
  }

  /** A Redis subscription (the client's Sub). */
  class Subscription {
    const channel: string
    var closed: bool

    constructor (channel: string)
      ensures this.channel == channel && !closed
    {
      this.channel := channel;
      closed := false;
    }

    method Close()
      modifies this
      ensures closed
    {
      closed := true;
    }
  }

  /** A connected websocket session. */
  class Client {
    const userId: string
    const send: SendBuffer
    var sub: Subscription?

    constructor (userId: string)
      ensures this.userId == userId && sub == null
      ensures fresh(send) && send.capacity == SendCapacity && send.contents == [] && !send.closed
    {
      this.userId := userId;
      send := new SendBuffer(SendCapacity);
      sub := null;
    }

    /** The start of listenToRedis: the client subscribes to its own channel. */
    method Subscribe()
      modifies this
      ensures fresh(sub) && sub.channel == UserChannel(userId) && !sub.closed
    {
      sub := new Subscription(UserChannel(userId));
    }
  }

  /** The hub: its registry of clients by user id, the clients handed to
      RegisterClient that Run has not taken yet, and the publishes it has
      sent to the broker. */
  class Hub {
    var clients: map<string, Client>
    var pending: seq<Client>
    var published: seq<Publish>

    /** NewHub. */
    constructor ()
      ensures clients == map[] && pending == [] && published == []
    {
      clients := map[];
      pending := [];
      published := [];
    }

    /** RegisterClient only hands the client to Run; the registry is not
        touched. */
    method RegisterClient(c: Client)
      modifies this
      ensures pending == old(pending) + [c]
      ensures clients == old(clients) && published == old(published)
    {
      pending := pending + [c];
    }

    /** One register case of Run: the oldest client handed over is taken and
        registered. */
    method RunRegister()
      requires pending != []
      modifies this
      ensures pending == old(pending)[1..]
      ensures clients == old(clients)[old(pending)[0].userId := old(pending)[0]]
      ensures published == old(published)
    {
      var c := pending[0];
      pending := pending[1..];
      Register(c);
    }

    /** The register case of Run: the client is stored under its user id,
        replacing any earlier client of that user, which is left open. */
    method Register(c: Client)
      modifies this
      ensures clients == old(clients)[c.userId := c]
      ensures pending == old(pending) && published == old(published)
    {
      clients := clients[c.userId := c];
    }

    /** The unregister case of Run as written: only the user id is looked
        up, not which client is registered under it. */
    method Unregister(c: Client)
      requires !c.send.closed
      modifies this, c.send, c.sub
      ensures published == old(published) && pending == old(pending)
      ensures c.userId in old(clients) ==>
                clients == old(clients) - {c.userId} && c.send.closed && c.send.contents == old(c.send.contents)
                && (c.sub != null ==> c.sub.closed)
      ensures c.userId !in old(clients) ==>
                clients == old(clients) && !c.send.closed && c.send.contents == old(c.send.contents)
                && (c.sub != null ==> c.sub.closed == old(c.sub.closed))
    {
      if c.userId in clients {
        clients := clients - {c.userId};
        c.send.Close();
        if c.sub != null {
          c.sub.Close();
        }
      }
    }

    /** Unregister as evidently intended: the entry is removed only when it
        is this client's, and the client's own channel and subscription are
        always released. */
    method UnregisterIfCurrent(c: Client)
      requires !c.send.closed
      modifies this, c.send, c.sub
      ensures published == old(published) && pending == old(pending)
      ensures clients == if c.userId in old(clients) && old(clients)[c.userId] == c
                         then old(clients) - {c.userId} else old(clients)
      ensures c.send.closed && c.send.contents == old(c.send.contents)
      ensures c.sub != null ==> c.sub.closed
    {
      if c.userId in clients && clients[c.userId] == c {
        clients := clients - {c.userId};
      }
      c.send.Close();
      if c.sub != null {
        c.sub.Close();
      }
    }

    /** PublishToUser: a broker error is only logged, so nothing is returned. */
    method PublishToUser(userId: string, payload: string)
      modifies this
      ensures clients == old(clients) && pending == old(pending)
      ensures published == old(published) + [Publish(UserChannel(userId), payload)]
    {
      published := published + [Publish(UserChannel(userId), payload)];
    }
  }

  /** A session of user "u" is replaced by a second one before the first
      disconnects.  With the registry as written, the first session's
      unregister evicts the second, and the second's own unregister then
      finds no entry: its channel and its subscription are never closed. */
  method StaleUnregisterLeaks() returns (newerRegistered: bool, newerSendClosed: bool, newerSubClosed: bool)
    ensures !newerRegistered && !newerSendClosed && !newerSubClosed
  {
    var hub := new Hub();
    var older := new Client("u");
    var newer := new Client("u");
    newer.Subscribe();
    hub.Register(older);
    hub.Register(newer);
    hub.Unregister(older);
    newerRegistered := "u" in hub.clients;
    hub.Unregister(newer);
    newerSendClosed := newer.send.closed;
    newerSubClosed := newer.sub.closed;
  }

  /** The same sessions with the identity check: the second session stays
      registered until it leaves itself, and then everything it holds is
      released. */
  method StaleUnregisterFixed() returns (newerRegistered: bool, newerSendClosed: bool, newerSubClosed: bool)
    ensures newerRegistered && newerSendClosed && newerSubClosed
  {
    var hub := new Hub();
    var older := new Client("u");
    var newer := new Client("u");
    newer.Subscribe();
    hub.Register(older);
    hub.Register(newer);
    hub.UnregisterIfCurrent(older);
    newerRegistered := "u" in hub.clients && hub.clients["u"] == newer;
    hub.UnregisterIfCurrent(newer);
    newerSendClosed := newer.send.closed;
    newerSubClosed := newer.sub.closed;
  }

  // ------------------------------------------------------------- pumps

  /** What ReadMessage returns: an error, or a text frame. */
  datatype Frame = ReadError | Data(bytes: string)

  datatype IncomingChatMessage = IncomingChatMessage(recipientId: string, content: string)

  datatype OutgoingChatMessage = OutgoingChatMessage(messageId: string, senderId: string, content: string,
                                                     sentAt: int, chatRoomId: string)

  /** The results the repository and the clock give for one frame. */
  datatype FrameEnv = FrameEnv(newRoomId: string, newMessageId: string, now: int,
                               selectErr: Option<Error>, insertErr: Option<Error>, txErr: Option<Error>)

  /** The id of the room a message between `a` and `b` lands in: the room
      of their ordered pair when it exists, else the one created with
      `newId`. */
  function PairRoomId(rooms: seq<ChatRoom>, a: string, b: string, newId: string): string
  {
    var (u1, u2) := OrderedPair(a, b);
    var i := PairIndex(rooms, u1, u2);
    if i < |rooms| then rooms[i].id else newId
  }

  /** When the room lookup, the room insert and the message transaction all
      succeed for a message from `a` to `b`. */
  predicate MessageStorable(rooms: seq<ChatRoom>, messages: seq<ChatMessage>, a: string, b: string, env: FrameEnv)
  {
    var (u1, u2) := OrderedPair(a, b);
    env.selectErr.None? && env.txErr.None? && !HasMessageId(messages, env.newMessageId)
    && (PairIndex(rooms, u1, u2) < |rooms| || (env.insertErr.None? && !HasRoomId(rooms, env.newRoomId)))
  }

  /** The repository half of ReadPump's loop: the room of the two users,
      found or created, then the message stored in it. */
  method StoreMessage(store: ChatStore, senderId: string, recipientId: string, content: string, env: FrameEnv)
    returns (r: Result<ChatMessage, Error>)
    requires store.Valid()
    modifies store
    ensures store.Valid()
    ensures r.Ok? ==>
              r.value == ChatMessage(env.newMessageId, r.value.roomId, senderId, content, env.now, false)
              && store.messages == old(store.messages) + [r.value]
    ensures r.Ok? <==> MessageStorable(old(store.rooms), old(store.messages), senderId, recipientId, env)
    ensures r.Ok? ==> r.value.roomId == PairRoomId(old(store.rooms), senderId, recipientId, env.newRoomId)
    ensures r.Failure? ==> store.messages == old(store.messages)
  {
    var room := store.FindOrCreateChatRoom(senderId, recipientId, env.newRoomId, env.now, env.selectErr, env.insertErr);
    if room.Failure? {
      return Failure(room.error);
    }
    assert HasRoomId(store.rooms, room.value.id) by {
      var (u1, u2) := OrderedPair(senderId, recipientId);
      var i := PairIndex(old(store.rooms), u1, u2);
      if i < |old(store.rooms)| {
        assert store.rooms[i].id == room.value.id;
      } else {
        assert store.rooms[|store.rooms| - 1].id == room.value.id;
      }
    }
    r := store.CreateMessage(room.value.id, senderId, content, env.newMessageId, env.now, env.txErr);
  }

  /** One iteration of ReadPump's loop.  `decode` and `encode` stand for
      json.Unmarshal and json.Marshal.  The result says whether the loop
      goes on; `sent` is the payload published, if any. */
  method ReadPumpStep(c: Client, hub: Hub, store: ChatStore, frame: Frame,
                      decode: string -> Option<IncomingChatMessage>,
                      encode: OutgoingChatMessage -> Option<string>, env: FrameEnv)
    returns (goOn: bool, sent: Option<OutgoingChatMessage>)
    requires store.Valid()
    modifies hub, store
    ensures store.Valid() && hub.clients == old(hub.clients)
    ensures goOn <==> frame.Data?
    ensures frame.ReadError? || decode(frame.bytes).None? ==>
              sent.None? && store.rooms == old(store.rooms) && store.messages == old(store.messages)
    ensures sent.None? ==> hub.published == old(hub.published)
    ensures sent.Some? <==>
              frame.Data? && decode(frame.bytes).Some?
              && var m := decode(frame.bytes).value;
                 var senderId := Uuid.ParseOrNil(c.userId);
                 var recipientId := Uuid.ParseOrNil(m.recipientId);
                 MessageStorable(old(store.rooms), old(store.messages), senderId, recipientId, env)
                 && encode(OutgoingChatMessage(env.newMessageId, c.userId, m.content, env.now,
                                               PairRoomId(old(store.rooms), senderId, recipientId, env.newRoomId))).Some?
    ensures sent.Some? ==>
              sent.value.chatRoomId == PairRoomId(old(store.rooms), Uuid.ParseOrNil(c.userId),
                                                  Uuid.ParseOrNil(decode(frame.bytes).value.recipientId), env.newRoomId)
    ensures sent.Some? ==>
              frame.Data? && decode(frame.bytes).Some? && encode(sent.value).Some?
              && var m := decode(frame.bytes).value;
                 var p := encode(sent.value).value;
                 hub.published == old(hub.published) + [Publish(UserChannel(m.recipientId), p), Publish(UserChannel(c.userId), p)]
                 && sent.value.senderId == c.userId && sent.value.content == m.content
                 && sent.value.messageId == env.newMessageId && sent.value.sentAt == env.now
                 && |store.messages| == |old(store.messages)| + 1
                 && store.messages[|store.messages| - 1] ==
                    ChatMessage(env.newMessageId, sent.value.chatRoomId, Uuid.ParseOrNil(c.userId), m.content, env.now, false)
  {
    sent := None;
    if frame.ReadError? {
      return false, None;
    }
    goOn := true;
    var decoded := decode(frame.bytes);
    if decoded.None? {
      return;
    }
    var m := decoded.value;
    var senderId := Uuid.ParseOrNil(c.userId);
    var recipientId := Uuid.ParseOrNil(m.recipientId);
    var dbMsg := StoreMessage(store, senderId, recipientId, m.content, env);
    if dbMsg.Failure? {
      return;
    }
    var out := OutgoingChatMessage(dbMsg.value.id, c.userId, dbMsg.value.content, dbMsg.value.sentAt, dbMsg.value.roomId);
    var payload := encode(out);
    if payload.None? {
      return;
    }
    hub.PublishToUser(m.recipientId, payload.value);
    hub.PublishToUser(c.userId, payload.value);
    sent := Some(out);
  }

  /** A recipient id that differs from its printed form only in case still
      gets a room under the printed id, but its copy of the message goes to
      a channel no session of that user listens on. */
  lemma RawRecipientChannel(raw: string)
    requires Uuid.WellFormed(raw) && !Uuid.Canonical(raw)
    ensures Uuid.ParseOrNil(raw) != raw
    ensures UserChannel(raw) != UserChannel(Uuid.ParseOrNil(raw))
  {
    UserChannelInjective(raw, Uuid.ParseOrNil(raw));
  }

  /** What WritePump writes to the connection in one turn of its select. */
  datatype WriteAction = WriteClose | WriteText(payload: string) | WritePing | Blocked

  /** One turn of WritePump's select.  `tick` says whether the ticker has
      fired and `preferTick` how Go's select chooses when both cases are
      ready; `writeFailed` is the outcome of the write.  The result says
      whether the loop goes on. */
  method WritePumpStep(c: Client, tick: bool, preferTick: bool, writeFailed: bool)
    returns (action: WriteAction, goOn: bool)
    requires c.send.Valid()
    modifies c.send
    ensures c.send.Valid() && c.send.closed == old(c.send.closed)
    ensures var sendReady := old(c.send.contents) != [] || c.send.closed;
            if tick && (preferTick || !sendReady) then
              action == WritePing && goOn == !writeFailed && c.send.contents == old(c.send.contents)
            else if old(c.send.contents) != [] then
              action == WriteText(old(c.send.contents)[0]) && goOn == !writeFailed
              && c.send.contents == old(c.send.contents)[1..]
            else if c.send.closed then
              action == WriteClose && !goOn && c.send.contents == []
            else
              action == Blocked && goOn && c.send.contents == []
  {
    var sendReady := c.send.contents != [] || c.send.closed;
    if tick && (preferTick || !sendReady) {
      return WritePing, !writeFailed;
    }
    var r := c.send.Receive();
    match r
    case Got(p) => action := WriteText(p); goOn := !writeFailed;
    case ChannelClosed => action := WriteClose; goOn := false;
    case Empty => action := Blocked; goOn := true;
  }
}

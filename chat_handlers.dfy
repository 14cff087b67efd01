/** The chat HTTP handlers (internals/handlers/chat_handlers.go): the guards
    in front of the websocket upgrade, the room-membership check and the
    pagination clamps of the message endpoints, and the choice of whom a
    message sent over HTTP is for. */
module ChatHandlers {
  import opened Wrappers
  import opened GoStrings
  import opened Errors
  import opened Http
  import Uuid
  import opened ChatRepo
  import opened ChatHub

  /** ServeWs.  `userId` is the "userID" context value (None when absent)
      and `upgraded` whether the websocket upgrade succeeds.  A session is
      created with a 256-slot Send channel under the printed form of its id
      and handed to the hub's register queue before its pumps start. */
  method ServeWs(hub: Hub, userId: Option<string>, upgraded: bool)
    returns (resp: Option<Response>, client: Client?)
    modifies hub
    ensures userId.None? ==> resp == Some(Response(401, "User ID not found in token")) && client == null
    ensures userId.Some? && !Uuid.WellFormed(userId.value) ==>
              resp == Some(Response(400, "Invalid user ID format in token")) && client == null
    ensures hub.clients == old(hub.clients)
    ensures client == null ==> hub.pending == old(hub.pending)
    ensures client != null <==> userId.Some? && Uuid.WellFormed(userId.value) && upgraded
    ensures client != null ==>
              resp.None? && fresh(client) && fresh(client.send)
              && Uuid.Parse(userId.value) == Some(client.userId)
              && client.send.capacity == SendCapacity && client.send.contents == [] && !client.send.closed
              && hub.pending == old(hub.pending) + [client]
    ensures hub.published == old(hub.published)
  {
    if userId.None? {
      return Some(Response(401, "User ID not found in token")), null;
    }
    var parsed := Uuid.Parse(userId.value);
    if parsed.None? {
      return Some(Response(400, "Invalid user ID format in token")), null;
    }
    if !upgraded {
      return None, null;
    }
    client := new Client(parsed.value);
    hub.RegisterClient(client);
    resp := None;
  }

  const DefaultMessageLimit := 50
  const MaxMessageLimit := 100

  /** The limit GetMessages uses: the parsed "limit" parameter when it lies
      in 1..100, otherwise 50 (also when it does not parse). */
  function MessageLimit(q: Query): (limit: int)
    ensures 1 <= limit <= MaxMessageLimit
    ensures limit == DefaultMessageLimit || Atoi(DefaultParam(q, "limit", "50")) == Some(limit)
  {
    var n := AtoiValue(DefaultParam(q, "limit", "50"));
    if n <= 0 || n > MaxMessageLimit then DefaultMessageLimit else n
  }

  /** The offset GetMessages uses: negative values become 0, and so does a
      value that does not parse; one past the 64-bit range is its bound. */
  function MessageOffset(q: Query): (offset: int)
    ensures offset >= 0
    ensures offset == 0 || offset == MaxInt64 || Atoi(DefaultParam(q, "offset", "0")) == Some(offset)
    ensures var p := Atoi(DefaultParam(q, "offset", "0")); p.Some? && p.value >= 0 ==> offset == p.value
  {
    var n := AtoiValue(DefaultParam(q, "offset", "0"));
    if n < 0 then 0 else n
  }

  /** A limit that parses within range is used as given; any other limit is
      replaced by the default, never rejected. */
  lemma MessageLimitClamp(q: Query, raw: string)
    requires "limit" in q && q["limit"] == raw
    ensures Atoi(raw).Some? && 1 <= Atoi(raw).value <= MaxMessageLimit ==> MessageLimit(q) == Atoi(raw).value
    ensures Atoi(raw).None? ==> MessageLimit(q) == DefaultMessageLimit || AtoiValue(raw) == MaxInt64
    ensures Atoi(raw).Some? && (Atoi(raw).value <= 0 || Atoi(raw).value > MaxMessageLimit) ==>
              MessageLimit(q) == DefaultMessageLimit
  {
  }

  /** Without parameters the first 50 messages are asked for. */
  lemma MessagePageDefaults()
    ensures MessageLimit(map[]) == DefaultMessageLimit && MessageOffset(map[]) == 0
  {
    AtoiNatToString(50);
    AtoiNatToString(0);
    assert NatToString(50) == "50";
    assert NatToString(0) == "0";
  }

  /** The page asked of GetMessagesForRoom. */
  datatype PageRequest = PageRequest(roomId: string, limit: int, offset: int)

  datatype MessagesOutcome = MessagesOutcome(response: Response, request: Option<PageRequest>,
                                             messages: seq<ChatMessage>)

  /** The checks GetMessages and MarkRoomAsRead share, in their order: the
      caller, the room id, then membership.  `authErr` is a failure of the
      membership query. */
  function RoomAccess(store: ChatStore, userId: Option<string>, roomParam: string, authErr: Option<Error>)
    : (r: Result<(string, string), Response>)
    reads store
    ensures userId.None? ==> r == Failure(Response(401, "User not authenticated"))
    ensures r.Ok? <==>
              userId.Some? && Uuid.WellFormed(userId.value) && Uuid.WellFormed(roomParam)
              && store.IsUserInChatRoom(Uuid.ParseOrNil(roomParam), Uuid.ParseOrNil(userId.value), authErr) == Ok(true)
    ensures r.Ok? ==> r.value == (Uuid.ParseOrNil(roomParam), Uuid.ParseOrNil(userId.value))
    ensures userId.Some? && Uuid.WellFormed(userId.value) && Uuid.WellFormed(roomParam) && authErr.None? && r.Failure? ==>
              r.error == Response(403, "Access denied to this chat room")
  {
    if userId.None? then Failure(Response(401, "User not authenticated"))
    else if !Uuid.WellFormed(userId.value) then Failure(Response(400, "Invalid user ID format"))
    else if !Uuid.WellFormed(roomParam) then Failure(Response(400, "Invalid room ID"))
    else
      var user := Uuid.ParseOrNil(userId.value);
      var room := Uuid.ParseOrNil(roomParam);
      match store.IsUserInChatRoom(room, user, authErr)
      case Failure(_) => Failure(Response(500, "Authorization check failed"))
      case Ok(false) => Failure(Response(403, "Access denied to this chat room"))
      case Ok(true) => Ok((room, user))
  }

  /** GetMessages.  `rows` and `queryErr` are what the page query returns;
      the read-marking it then starts in the background is not modelled. */
  function GetMessages(store: ChatStore, userId: Option<string>, roomParam: string, q: Query,
                       authErr: Option<Error>, rows: seq<Row>, queryErr: Option<Error>): (r: MessagesOutcome)
    reads store
    ensures RoomAccess(store, userId, roomParam, authErr).Failure? ==>
              r.request.None? && r.messages == [] && r.response == RoomAccess(store, userId, roomParam, authErr).error
    ensures r.request.Some? ==>
              RoomAccess(store, userId, roomParam, authErr).Ok?
              && r.request.value == PageRequest(RoomAccess(store, userId, roomParam, authErr).value.0,
                                                MessageLimit(q), MessageOffset(q))
              && 1 <= r.request.value.limit <= MaxMessageLimit && r.request.value.offset >= 0
    ensures RoomAccess(store, userId, roomParam, authErr).Ok? ==> r.request.Some?
    ensures r.request.Some? && queryErr.Some? ==> r.response == Response(500, "Failed to retrieve messages")
    ensures r.response.status == 200 <==> r.request.Some? && queryErr.None?
    ensures r.response.status == 200 ==> r.messages == ScannedMessages(rows)
  {
    match RoomAccess(store, userId, roomParam, authErr)
    case Failure(resp) => MessagesOutcome(resp, None, [])
    case Ok((room, _)) =>
      var request := PageRequest(room, MessageLimit(q), MessageOffset(q));
      if queryErr.Some? then MessagesOutcome(Response(500, "Failed to retrieve messages"), Some(request), [])
      else MessagesOutcome(Response(200, ""), Some(request), ScannedMessages(rows))
  }

  /** MarkRoomAsRead: messages change only after the caller has been found
      to be a member of the room. */
  method MarkRoomAsRead(store: ChatStore, userId: Option<string>, roomParam: string,
                        authErr: Option<Error>, execErr: Option<Error>)
    returns (resp: Response)
    requires store.Valid()
    modifies store
    ensures store.Valid() && store.rooms == old(store.rooms)
    ensures old(RoomAccess(store, userId, roomParam, authErr)).Failure? ==>
              resp == old(RoomAccess(store, userId, roomParam, authErr)).error && store.messages == old(store.messages)
    ensures old(RoomAccess(store, userId, roomParam, authErr)).Ok? ==>
              var (room, user) := old(RoomAccess(store, userId, roomParam, authErr)).value;
              (execErr.Some? ==> resp == Response(500, "Failed to mark messages as read") && store.messages == old(store.messages))
              && (execErr.None? ==>
                    resp == Response(200, "Messages marked as read")
                    && store.messages == MarkRead(old(store.messages), room, user))
  {
    var access := RoomAccess(store, userId, roomParam, authErr);
    if access.Failure? {
      return access.error;
    }
    var (room, user) := access.value;
    var err := store.MarkMessagesAsRead(room, user, execErr);
    if err.Some? {
      return Response(500, "Failed to mark messages as read");
    }
    return Response(200, "Messages marked as read");
  }

  /** The repository results and fresh values one SendMessage request meets. */
  datatype SendEnv = SendEnv(newMessageId: string, newRoomId: string, now: int, txErr: Option<Error>,
                             selectErr: Option<Error>, insertErr: Option<Error>)

  /** The response, the user chosen as recipient, and the endpoint a push
      notification is sent to.  PanicOutcome stands for a failed uuid.MustParse. */
  datatype SendOutcome =
    | PanicOutcome
    | Sent(response: Response, recipient: Option<string>, pushTarget: Option<string>)

  /** The other participant of a room, seen from `sender`. */
  function OtherUser(room: ChatRoom, sender: string): (r: string)
    ensures r == room.user1 || r == room.user2
    ensures sender == room.user1 ==> r == room.user2
    ensures sender != room.user1 ==> r == room.user1
  {
    if room.user1 == sender then room.user2 else room.user1
  }

  /** The position of the room with the given id, or |rooms|. */
  function RoomIndex(rooms: seq<ChatRoom>, id: string): (r: nat)
    ensures r <= |rooms|
    ensures r < |rooms| ==> rooms[r].id == id
    ensures r == |rooms| ==> !HasRoomId(rooms, id)
  {
    if rooms == [] then 0
    else if rooms[0].id == id then 0
    else
      var k := RoomIndex(rooms[1..], id);
      assert k == |rooms[1..]| ==> forall i :: 0 < i < |rooms| ==> rooms[i].id == rooms[1..][i - 1].id;
      1 + k
  }

  /** The push notification step: attempted only when the endpoint lookup
      succeeds with a non-empty ARN. */
  function PushTarget(arn: Result<string, Error>): (r: Option<string>)
    ensures r.Some? <==> arn.Ok? && arn.value != ""
    ensures r.Some? ==> r.value == arn.value
  {
    if arn.Ok? && arn.value != "" then Some(arn.value) else None
  }

  /** SendMessage as written: after storing the message it asks
      FindOrCreateChatRoom for the room between the message's room id and
      the sender, and takes the recipient from that room.  `arnOf` stands
      for GetUserSnsEndpointArn. */
  method SendMessageAsWritten(store: ChatStore, userId: Option<string>, roomParam: string, body: Option<string>,
                              env: SendEnv, arnOf: string -> Result<string, Error>)
    returns (r: SendOutcome)
    requires store.Valid()
    modifies store
    ensures store.Valid()
    ensures userId.None? ==> r == Sent(Response(401, "User not authenticated"), None, None)
    ensures userId.Some? && body.None? ==> r == Sent(Response(400, "Invalid request body"), None, None)
    ensures r.Sent? && r.response.status == 200 && Uuid.Canonical(userId.value) && Uuid.Canonical(roomParam)
            && roomParam != userId.value ==>
              r.recipient == Some(roomParam)
  {
    if userId.None? {
      return Sent(Response(401, "User not authenticated"), None, None);
    }
    if body.None? {
      return Sent(Response(400, "Invalid request body"), None, None);
    }
    var room := Uuid.Parse(roomParam);
    var user := Uuid.Parse(userId.value);
    if room.None? || user.None? {
      return PanicOutcome;
    }
    var msg := store.CreateMessage(room.value, user.value, body.value, env.newMessageId, env.now, env.txErr);
    if msg.Failure? {
      return Sent(Response(500, "Failed to send message"), None, None);
    }
    var found := store.FindOrCreateChatRoom(msg.value.roomId, user.value, env.newRoomId, env.now,
                                            env.selectErr, env.insertErr);
    if found.Failure? {
      return Sent(Response(500, "Failed to fetch chat room"), None, None);
    }
    var recipient := OtherUser(found.value, userId.value);
    if !Uuid.WellFormed(recipient) {
      return PanicOutcome;
    }
    var target := PushTarget(arnOf(Uuid.ParseOrNil(recipient)));
    r := Sent(Response(200, ""), Some(recipient), target);
    if Uuid.Canonical(userId.value) && Uuid.Canonical(roomParam) && roomParam != userId.value {
      Uuid.ParseCanonical(userId.value);
      Uuid.ParseCanonical(roomParam);
      assert r.recipient == Some(roomParam);
    }
  }

  /** SendMessage with the recipient taken from the room the message was
      stored in: the participant other than the sender. */
  method SendMessage(store: ChatStore, userId: Option<string>, roomParam: string, body: Option<string>,
                     env: SendEnv, arnOf: string -> Result<string, Error>)
    returns (r: SendOutcome)
    requires store.Valid()
    modifies store
    ensures store.Valid()
    ensures userId.None? ==> r == Sent(Response(401, "User not authenticated"), None, None)
    ensures userId.Some? && body.None? ==> r == Sent(Response(400, "Invalid request body"), None, None)
    ensures r.Sent? && r.response.status == 200 ==>
              exists i :: 0 <= i < |store.rooms| && store.rooms[i].id == Uuid.ParseOrNil(roomParam)
                          && r.recipient == Some(OtherUser(store.rooms[i], userId.value))
                          && r.pushTarget == PushTarget(arnOf(Uuid.ParseOrNil(r.recipient.value)))
    ensures r.Sent? && r.response.status == 200 ==>
              store.messages == old(store.messages) + [ChatMessage(env.newMessageId, Uuid.ParseOrNil(roomParam),
                                                                   Uuid.ParseOrNil(userId.value), body.value,
                                                                   env.now, false)]
    ensures userId.Some? && body.Some? && Uuid.WellFormed(roomParam) && Uuid.WellFormed(userId.value)
            && env.txErr.None? && !HasMessageId(old(store.messages), env.newMessageId)
            && RoomIndex(old(store.rooms), Uuid.ParseOrNil(roomParam)) < |old(store.rooms)|
            && Uuid.WellFormed(OtherUser(old(store.rooms)[RoomIndex(old(store.rooms), Uuid.ParseOrNil(roomParam))],
                                         userId.value))
            ==> r.Sent? && r.response.status == 200
  {
    ghost var rooms0 := store.rooms;
    if userId.None? {
      return Sent(Response(401, "User not authenticated"), None, None);
    }
    if body.None? {
      return Sent(Response(400, "Invalid request body"), None, None);
    }
    var room := Uuid.Parse(roomParam);
    var user := Uuid.Parse(userId.value);
    if room.None? || user.None? {
      return PanicOutcome;
    }
    var msg := store.CreateMessage(room.value, user.value, body.value, env.newMessageId, env.now, env.txErr);
    if msg.Failure? {
      return Sent(Response(500, "Failed to send message"), None, None);
    }
    RoomIndexSetLast(rooms0, room.value, env.now, room.value);
    var i := RoomIndex(store.rooms, msg.value.roomId);
    if i == |store.rooms| {
      return Sent(Response(500, "Failed to fetch chat room"), None, None);
    }
    var recipient := OtherUser(store.rooms[i], userId.value);
    if !Uuid.WellFormed(recipient) {
      return PanicOutcome;
    }
    r := Sent(Response(200, ""), Some(recipient), PushTarget(arnOf(Uuid.ParseOrNil(recipient))));
  }

  /** Stamping a room's last message time moves no room. */
  lemma {:induction false} RoomIndexSetLast(rooms: seq<ChatRoom>, id: string, t: int, x: string)
    ensures RoomIndex(SetLastMessageAt(rooms, id, t), x) == RoomIndex(rooms, x)
  {
    if rooms != [] {
      var r := SetLastMessageAt(rooms, id, t);
      assert r[1..] == SetLastMessageAt(rooms[1..], id, t);
      RoomIndexSetLast(rooms[1..], id, t, x);
    }
  }

  /** In a room between two users, the corrected choice names the other
      one. */
  lemma OtherUserIsPeer(room: ChatRoom, sender: string)
    requires sender == room.user1 || sender == room.user2
    requires room.user1 != room.user2
    ensures OtherUser(room, sender) != sender
    ensures OtherUser(room, sender) == room.user1 || OtherUser(room, sender) == room.user2
  {
  }
}

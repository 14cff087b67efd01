/** The chat tables and the repository operations on them
    (internals/db/repositories/chat_repository.go).  The "ChatRoom" and
    "Messages" tables are sequences held by a store object; a failing SQL
    statement is an input, and the fresh ids and the clock are parameters. */
module ChatRepo {
  import opened Wrappers
  import opened GoStrings
  import opened Errors

  datatype ChatRoom = ChatRoom(id: string, user1: string, user2: string, constraintKey: string,
                               lastMessageAt: Option<int>)

  datatype ChatMessage = ChatMessage(id: string, roomId: string, senderId: string, content: string,
                                     sentAt: int, read: bool)

  /** The two participants in the order the repository stores them: the
      smaller string first. */
  function OrderedPair(a: string, b: string): (r: (string, string))
    ensures r == (a, b) || r == (b, a)
    ensures !Less(r.1, r.0)
  {
    if Less(b, a) then LessAsymmetric(b, a); (b, a) else (a, b)
  }

  /** Either order of the two users names the same room. */
  lemma OrderedPairSymmetric(a: string, b: string)
    ensures OrderedPair(a, b) == OrderedPair(b, a)
  {
    LessTotal(a, b);
    LessAsymmetric(a, b);
  }

  /** The value of the constraint_user1_user2 column. */
  function ConstraintKey(user1: string, user2: string): string
  {
    user1 + ":" + user2
  }

  /** The position of the room of an ordered pair, or |rooms|. */
  function PairIndex(rooms: seq<ChatRoom>, user1: string, user2: string): (r: nat)
    ensures r <= |rooms|
    ensures r < |rooms| ==> rooms[r].user1 == user1 && rooms[r].user2 == user2
    ensures forall j :: 0 <= j < r ==> !(rooms[j].user1 == user1 && rooms[j].user2 == user2)
  {
    if rooms == [] then 0
    else if rooms[0].user1 == user1 && rooms[0].user2 == user2 then 0
    else 1 + PairIndex(rooms[1..], user1, user2)
  }

  predicate HasRoomId(rooms: seq<ChatRoom>, id: string)
  {
    exists i :: 0 <= i < |rooms| && rooms[i].id == id
  }

  predicate HasMessageId(messages: seq<ChatMessage>, id: string)
  {
    exists i :: 0 <= i < |messages| && messages[i].id == id
  }

  /** The UPDATE of last_message_at: every room with that id gets the time. */
  function SetLastMessageAt(rooms: seq<ChatRoom>, id: string, t: int): (r: seq<ChatRoom>)
    ensures |r| == |rooms|
    ensures forall i :: 0 <= i < |rooms| ==>
              r[i] == if rooms[i].id == id then rooms[i].(lastMessageAt := Some(t)) else rooms[i]
  {
    if rooms == [] then []
    else [if rooms[0].id == id then rooms[0].(lastMessageAt := Some(t)) else rooms[0]]
         + SetLastMessageAt(rooms[1..], id, t)
  }

  /** The rooms table's constraints: each pair is stored in order under its
      constraint key, and ids and pairs are unique. */
  ghost predicate ValidRooms(rooms: seq<ChatRoom>)
  {
    (forall i :: 0 <= i < |rooms| ==>
       !Less(rooms[i].user2, rooms[i].user1)
       && rooms[i].constraintKey == ConstraintKey(rooms[i].user1, rooms[i].user2))
    && (forall i, j :: 0 <= i < j < |rooms| ==>
          rooms[i].id != rooms[j].id && (rooms[i].user1, rooms[i].user2) != (rooms[j].user1, rooms[j].user2))
  }

  /** Touching last_message_at changes no column the constraints read. */
  lemma SetLastKeepsValid(rooms: seq<ChatRoom>, id: string, t: int)
    requires ValidRooms(rooms)
    ensures ValidRooms(SetLastMessageAt(rooms, id, t))
  {
    var r := SetLastMessageAt(rooms, id, t);
    assert forall i :: 0 <= i < |r| ==>
      r[i].id == rooms[i].id && r[i].user1 == rooms[i].user1 && r[i].user2 == rooms[i].user2
      && r[i].constraintKey == rooms[i].constraintKey;
  }

  /** Whether the UPDATE of MarkMessagesAsRead selects a message. */
  predicate MarkedByRead(m: ChatMessage, roomId: string, readerId: string)
  {
    m.roomId == roomId && m.senderId != readerId && !m.read
  }

  /** The UPDATE of MarkMessagesAsRead on the whole table. */
  function MarkRead(messages: seq<ChatMessage>, roomId: string, readerId: string): (r: seq<ChatMessage>)
    ensures |r| == |messages|
    ensures forall i :: 0 <= i < |messages| ==>
              r[i] == if MarkedByRead(messages[i], roomId, readerId) then messages[i].(read := true) else messages[i]
  {
    if messages == [] then []
    else [if MarkedByRead(messages[0], roomId, readerId) then messages[0].(read := true) else messages[0]]
         + MarkRead(messages[1..], roomId, readerId)
  }

  /** After the update no message of the room from another sender is
      unread, and every message outside that set is as it was. */
  lemma MarkReadEffect(messages: seq<ChatMessage>, roomId: string, readerId: string)
    ensures var r := MarkRead(messages, roomId, readerId);
            forall i :: 0 <= i < |r| ==>
              (r[i].roomId == roomId && r[i].senderId != readerId ==> r[i].read)
              && r[i].(read := messages[i].read) == messages[i]
              && (r[i].read != messages[i].read <==> MarkedByRead(messages[i], roomId, readerId))
  {
  }

  /** Marking twice is the same as marking once. */
  lemma MarkReadIdempotent(messages: seq<ChatMessage>, roomId: string, readerId: string)
    ensures MarkRead(MarkRead(messages, roomId, readerId), roomId, readerId) == MarkRead(messages, roomId, readerId)
  {
    var once := MarkRead(messages, roomId, readerId);
    var twice := MarkRead(once, roomId, readerId);
    assert forall i :: 0 <= i < |once| ==> !MarkedByRead(once[i], roomId, readerId);
    assert forall i :: 0 <= i < |once| ==> twice[i] == once[i];
  }

  /** A scanned row of the messages query: Scan can fail on a row. */
  datatype Row = ScanFailed | Scanned(message: ChatMessage)

  /** The rows that scanned, in order. */
  function ScannedMessages(rows: seq<Row>): (r: seq<ChatMessage>)
    ensures |r| <= |rows|
    ensures forall m :: m in r ==> Scanned(m) in rows
  {
    if rows == [] then []
    else (if rows[0].Scanned? then [rows[0].message] else []) + ScannedMessages(rows[1..])
  }

  predicate OldestFirst(ms: seq<ChatMessage>)
  {
    forall i, j :: 0 <= i < j < |ms| ==> ms[i].sentAt <= ms[j].sentAt
  }

  /** Rows ordered by sent_at, whatever scans failed among them. */
  predicate RowsOldestFirst(rows: seq<Row>)
  {
    forall i, j :: 0 <= i < j < |rows| && rows[i].Scanned? && rows[j].Scanned? ==>
      rows[i].message.sentAt <= rows[j].message.sentAt
  }

  /** Skipping the rows that fail to scan keeps the query's order. */
  lemma {:induction false} ScannedKeepsOrder(rows: seq<Row>)
    requires RowsOldestFirst(rows)
    ensures OldestFirst(ScannedMessages(rows))
  {
    if rows != [] {
      TailOldestFirst(rows);
      ScannedKeepsOrder(rows[1..]);
      if rows[0].Scanned? {
        HeadBeforeRest(rows);
        ConsOldestFirst(rows[0].message, ScannedMessages(rows[1..]));
      }
    }
  }

  lemma TailOldestFirst(rows: seq<Row>)
    requires rows != [] && RowsOldestFirst(rows)
    ensures RowsOldestFirst(rows[1..])
  {
    var tail := rows[1..];
    forall i, j | 0 <= i < j < |tail| && tail[i].Scanned? && tail[j].Scanned?
      ensures tail[i].message.sentAt <= tail[j].message.sentAt
    {
      assert tail[i] == rows[i + 1] && tail[j] == rows[j + 1];
    }
  }

  lemma HeadBeforeRest(rows: seq<Row>)
    requires rows != [] && rows[0].Scanned? && RowsOldestFirst(rows)
    ensures forall m :: m in ScannedMessages(rows[1..]) ==> rows[0].message.sentAt <= m.sentAt
  {
    forall m | m in ScannedMessages(rows[1..])
      ensures rows[0].message.sentAt <= m.sentAt
    {
      var k :| 0 <= k < |rows[1..]| && rows[1..][k] == Scanned(m);
      assert rows[k + 1] == Scanned(m);
    }
  }

  lemma ConsOldestFirst(x: ChatMessage, rest: seq<ChatMessage>)
    requires OldestFirst(rest) && forall m :: m in rest ==> x.sentAt <= m.sentAt
    ensures OldestFirst([x] + rest)
  {
    var all := [x] + rest;
    forall i, j | 0 <= i < j < |all|
      ensures all[i].sentAt <= all[j].sentAt
    {
      if i == 0 {
        assert all[j] in rest;
      } else {
        assert all[i] == rest[i - 1] && all[j] == rest[j - 1];
      }
    }
  }

  lemma ScannedAppend(rows: seq<Row>, row: Row)
    ensures ScannedMessages(rows + [row]) ==
            ScannedMessages(rows) + (if row.Scanned? then [row.message] else [])
  {
    if rows != [] {
      assert (rows + [row])[1..] == rows[1..] + [row];
      ScannedAppend(rows[1..], row);
    }
  }

  /** The rows and tables of the chat feature. */
  class ChatStore {
    var rooms: seq<ChatRoom>
    var messages: seq<ChatMessage>

    /** Stored pairs are ordered, carry their constraint key, and are unique,
        as are room ids. */
    ghost predicate Valid()
      reads this
    {
      ValidRooms(rooms)
    }

    constructor ()
      ensures rooms == [] && messages == [] && Valid()
    {
      rooms := [];
      messages := [];
    }

    /** FindOrCreateChatRoom.  `selectErr` is a failure of the SELECT other
        than "no rows", `insertErr` a failure of the INSERT, `newId` the id
        uuid.New() would give and `now` the clock.  A new id that is already
        taken fails the insert as the primary key would. */
    method FindOrCreateChatRoom(a: string, b: string, newId: string, now: int,
                                selectErr: Option<Error>, insertErr: Option<Error>)
      returns (r: Result<ChatRoom, Error>)
      requires Valid()
      modifies this
      ensures Valid() && messages == old(messages)
      ensures var (u1, u2) := OrderedPair(a, b);
              var i := PairIndex(old(rooms), u1, u2);
              if selectErr.Some? then r == Failure(selectErr.value) && rooms == old(rooms)
              else if i < |old(rooms)| then r == Ok(old(rooms)[i]) && rooms == old(rooms)
              else if insertErr.Some? then r == Failure(insertErr.value) && rooms == old(rooms)
              else if HasRoomId(old(rooms), newId) then r.Failure? && rooms == old(rooms)
              else r == Ok(ChatRoom(newId, u1, u2, ConstraintKey(u1, u2), None))
                   && rooms == old(rooms) + [r.value]
    {
      var (u1, u2) := OrderedPair(a, b);
      if selectErr.Some? {
        return Failure(selectErr.value);
      }
      var i := PairIndex(rooms, u1, u2);
      if i < |rooms| {
        return Ok(rooms[i]);
      }
      if insertErr.Some? {
        return Failure(insertErr.value);
      }
      if HasRoomId(rooms, newId) {
        return Failure(Plain("duplicate key value violates unique constraint"));
      }
      var room := ChatRoom(newId, u1, u2, ConstraintKey(u1, u2), None);
      rooms := rooms + [room];
      return Ok(room);
    }

    /** CreateMessage: the INSERT and the UPDATE of last_message_at run in one
        transaction.  `txErr` is a failure of any of its statements; a room id
        that does not exist fails the insert as the foreign key would. */
    method CreateMessage(roomId: string, senderId: string, content: string, msgId: string, now: int,
                         txErr: Option<Error>)
      returns (r: Result<ChatMessage, Error>)
      requires Valid()
      modifies this
      ensures Valid()
      ensures r.Ok? <==> txErr.None? && HasRoomId(old(rooms), roomId) && !HasMessageId(old(messages), msgId)
      ensures r.Failure? ==> rooms == old(rooms) && messages == old(messages)
      ensures r.Ok? ==>
                r.value == ChatMessage(msgId, roomId, senderId, content, now, false)
                && messages == old(messages) + [r.value]
                && rooms == SetLastMessageAt(old(rooms), roomId, now)
    {
      if txErr.Some? {
        return Failure(txErr.value);
      }
      if !HasRoomId(rooms, roomId) {
        return Failure(Plain("insert or update on table \"Messages\" violates foreign key constraint"));
      }
      if HasMessageId(messages, msgId) {
        return Failure(Plain("duplicate key value violates unique constraint"));
      }
      var msg := ChatMessage(msgId, roomId, senderId, content, now, false);
      SetLastKeepsValid(rooms, roomId, now);
      messages := messages + [msg];
      rooms := SetLastMessageAt(rooms, roomId, now);
      return Ok(msg);
    }

    /** MarkMessagesAsRead; `execErr` is a failure of the UPDATE. */
    method MarkMessagesAsRead(roomId: string, readerId: string, execErr: Option<Error>)
      returns (err: Option<Error>)
      requires Valid()
      modifies this
      ensures Valid() && rooms == old(rooms)
      ensures err == execErr
      ensures messages == if execErr.Some? then old(messages) else MarkRead(old(messages), roomId, readerId)
    {
      if execErr.Some? {
        return execErr;
      }
      messages := MarkRead(messages, roomId, readerId);
      return None;
    }

    /** IsUserInChatRoom; `queryErr` is a failure of the SELECT other than
        "no rows". */
    function IsUserInChatRoom(roomId: string, userId: string, queryErr: Option<Error>): (r: Result<bool, Error>)
      reads this
      ensures queryErr.Some? <==> r.Failure?
      ensures r == Ok(true) <==>
                queryErr.None? &&
                exists i :: 0 <= i < |rooms| && rooms[i].id == roomId && (rooms[i].user1 == userId || rooms[i].user2 == userId)
    {
      if queryErr.Some? then Failure(queryErr.value)
      else Ok(exists i :: 0 <= i < |rooms| && rooms[i].id == roomId && (rooms[i].user1 == userId || rooms[i].user2 == userId))
    }
  }

  /** The scan loop of GetMessagesForRoom over the rows the query returned. */
  method GetMessagesForRoom(rows: seq<Row>) returns (ms: seq<ChatMessage>)
    ensures ms == ScannedMessages(rows)
    ensures RowsOldestFirst(rows) ==> OldestFirst(ms)
  {
    ms := [];
    var i := 0;
    while i < |rows|
      invariant 0 <= i <= |rows|
      invariant ms == ScannedMessages(rows[..i])
    {
      ScannedAppend(rows[..i], rows[i]);
      assert rows[..i + 1] == rows[..i] + [rows[i]];
      if rows[i].Scanned? {
        ms := ms + [rows[i].message];
      }
      i := i + 1;
    }
    assert rows[..i] == rows;
    if RowsOldestFirst(rows) {
      ScannedKeepsOrder(rows);
    }
  }

  /** A message sent in a room becomes that room's latest activity. */
  lemma CreateMessageSetsLastActivity(rooms: seq<ChatRoom>, roomId: string, now: int, i: nat)
    requires i < |rooms| && rooms[i].id == roomId
    ensures SetLastMessageAt(rooms, roomId, now)[i].lastMessageAt == Some(now)
    ensures forall j :: 0 <= j < |rooms| && rooms[j].id != roomId ==> SetLastMessageAt(rooms, roomId, now)[j] == rooms[j]
  {
  }
}

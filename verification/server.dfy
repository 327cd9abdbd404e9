/**
 The session hub of the backend: the `rooms` map, the three usage counters,
 the per-connection `currentRoom` and topic membership, and one handler per
 socket event. Every handler is a pure transition from the hub's state to
 its next state plus the events it emits, each addressed to a target.
 */
module Server {
  import opened Wrappers
  import opened InsertionMap
  import opened Text
  import opened Ids

  /** WebRTC signalling data, relayed without being looked at. */
  type Signal = string

  /** The code every new room starts with. */
  const DefaultCode: string := "// Start coding here..."
  const RoomNotFound: string := "Room not found"
  const RoomEndedNotice: string := "The host has ended the room"

  /** A room: `participants` maps connection ids to usernames in join order. */
  datatype Room = Room(language: string, participants: seq<Entry<ConnId, Username>>, code: string, host: ConnId)

  /**
   What the server keeps per live connection: the handler closure's
   `currentRoom` and the topics the socket has joined, not counting the
   private topic named by its own id.
   */
  datatype Conn = Conn(currentRoom: Option<RoomId>, topics: set<RoomId>)

  datatype State = State(
    rooms: map<RoomId, Room>,
    conns: map<ConnId, Conn>,
    activeUsers: int,
    totalSessions: int,
    totalLinesOfCode: int)

  /** The hub when the process starts. */
  const Init: State := State(map[], map[], 0, 0, 0)

  /** The socket events the hub handles, with the payload fields it reads. */
  datatype Request =
    | Connect
    | JoinRoom(roomId: RoomId, language: Option<string>, username: Username)
    | CodeChange(roomId: RoomId, code: string, targetUserId: Option<ConnId>)
    | ChatMessage(roomId: RoomId, message: string)
    | CallUser(roomId: RoomId, userToCall: ConnId, signalData: Signal)
    | AnswerCall(to: ConnId, signal: Signal)
    | ChangeLanguage(roomId: RoomId, newLanguage: string)
    | LeaveRoom(roomId: RoomId)
    | EndRoom(roomId: RoomId)
    | JoinVoice(roomId: RoomId)
    | LeaveVoice(roomId: RoomId)
    | Disconnect

  /**
   The events the hub emits, with their payloads. The payload field the
   source calls `username` is `name` where it is always present and an
   `Option` where the lookup behind it can miss.
   */
  datatype Event =
    | Error(message: string)
    | RoomState(language: string, code: string, participants: seq<Username>, isHost: bool)
    | UserJoined(userId: ConnId, name: Username, participants: seq<Username>)
    | CodeUpdate(code: string)
    | ReceiveMessage(message: string, sender: ConnId, username: Option<Username>)
    | IncomingCall(signal: Signal, from: ConnId, username: Option<Username>)
    | CallAccepted(signal: Signal)
    | LanguageChanged(language: string)
    | UserLeft(userId: ConnId, name: Username, participants: seq<Username>)
    | RoomEnded(message: string)
    | VoiceParticipantJoined(userId: ConnId, username: Option<Username>)
    | VoiceParticipantLeft(userId: ConnId)

  /**
   The address of an emitted event: `socket.emit` (the caller), `socket.to(t)`
   (topic `t` without the caller) and `io.to(t)` (all of topic `t`). A topic
   is a room id, or a connection id naming that connection's private topic.
   */
  datatype Target = ToConn(conn: ConnId) | RoomExcept(topic: string, except: ConnId) | RoomAll(topic: string)

  datatype Outgoing = Send(target: Target, event: Event)

  datatype Transition = Transition(state: State, outbox: seq<Outgoing>)

  /** JavaScript truthiness of the optional `language` field: absent and `''` are falsy. */
  predicate Truthy(v: Option<string>) {
    v.Some? && v.value != ""
  }

  /** The participants of `roomId` after a transition; `[]` once the room is gone. */
  function Remaining(s: State, roomId: RoomId): seq<Entry<ConnId, Username>> {
    if roomId in s.rooms then s.rooms[roomId].participants else []
  }

  /** A new connection: `currentRoom` starts as `null` and the socket is in no room topic. */
  function OnConnect(s: State, conn: ConnId): (t: Transition)
    requires conn !in s.conns
    ensures t.state.conns.Keys == s.conns.Keys + {conn}
    ensures t.state.conns[conn] == Conn(None, {})
    ensures t.state == s.(conns := t.state.conns) && t.outbox == []
  {
    Transition(s.(conns := s.conns[conn := Conn(None, {})]), [])
  }

  /**
   `join-room`. The caller's `currentRoom` is set and its room topics are
   left before the room is looked up, so an unknown room without a language
   still moves the caller out of every topic. The caller is never removed
   from the participants of the room it was in before.
   */
  function OnJoinRoom(s: State, conn: ConnId, roomId: RoomId, language: Option<string>, username: Username): (t: Transition)
    ensures conn in t.state.conns && t.state.conns[conn].currentRoom == Some(roomId)
    ensures t.state.conns - {conn} == s.conns - {conn}
    ensures forall r :: r in s.rooms && r != roomId ==> r in t.state.rooms && t.state.rooms[r] == s.rooms[r]
    ensures roomId in t.state.rooms <==> roomId in s.rooms || Truthy(language)
    // unknown room and no language: only an error to the caller
    ensures roomId !in s.rooms && !Truthy(language) ==>
      && t.state.rooms == s.rooms
      && t.state.conns[conn].topics == {}
      && t.state.activeUsers == s.activeUsers
      && t.state.totalSessions == s.totalSessions
      && t.state.totalLinesOfCode == s.totalLinesOfCode
      && t.outbox == [Send(ToConn(conn), Error(RoomNotFound))]
    // unknown room with a language: exactly one new room, hosted by the caller
    ensures roomId !in s.rooms && Truthy(language) ==>
      && t.state.rooms.Keys == s.rooms.Keys + {roomId}
      && t.state.rooms[roomId] == Room(language.value, [Entry(conn, username)], DefaultCode, conn)
    // known room: language, code and host stay; the caller is added or renamed in place
    ensures roomId in s.rooms ==>
      var before, after := s.rooms[roomId], t.state.rooms[roomId];
      && t.state.rooms.Keys == s.rooms.Keys
      && after.language == before.language
      && after.code == before.code
      && after.host == before.host
      && Get(after.participants, conn) == Some(username)
      && (forall c :: c != conn ==> Get(after.participants, c) == Get(before.participants, c))
      && (Has(before.participants, conn) ==> Keys(after.participants) == Keys(before.participants))
      && (!Has(before.participants, conn) ==> after.participants == before.participants + [Entry(conn, username)])
    // every successful join
    ensures roomId in s.rooms || Truthy(language) ==>
      var after := t.state.rooms[roomId];
      var names := Values(after.participants);
      && t.state.conns[conn].topics == {roomId}
      && t.state.activeUsers == s.activeUsers + 1
      && t.state.totalSessions == s.totalSessions + 1
      && t.state.totalLinesOfCode == s.totalLinesOfCode
      && t.outbox == [
        Send(ToConn(conn), RoomState(after.language, after.code, names, conn == after.host)),
        Send(RoomExcept(roomId, conn), UserJoined(conn, username, names))]
  {
    var conns := s.conns[conn := Conn(Some(roomId), {})];
    if roomId !in s.rooms && !Truthy(language) then
      Transition(s.(conns := conns), [Send(ToConn(conn), Error(RoomNotFound))])
    else
      var base := if roomId in s.rooms then s.rooms[roomId] else Room(language.value, [], DefaultCode, conn);
      var room := base.(participants := Set(base.participants, conn, username));
      var names := Values(room.participants);
      Transition(
        s.(rooms := s.rooms[roomId := room],
           conns := conns[conn := Conn(Some(roomId), {roomId})],
           activeUsers := s.activeUsers + 1,
           totalSessions := s.totalSessions + 1),
        [Send(ToConn(conn), RoomState(room.language, room.code, names, conn == room.host)),
         Send(RoomExcept(roomId, conn), UserJoined(conn, username, names))])
  }

  /**
   `code-change`. Last write wins on the room's one shared `code`; the caller
   is checked neither for membership nor for being the host, and the
   client's `targetUserId` is not read.
   */
  function OnCodeChange(s: State, conn: ConnId, roomId: RoomId, code: string): (t: Transition)
    ensures roomId !in s.rooms ==> t == Transition(s, [])
    ensures roomId in s.rooms ==>
      && t.state.rooms == s.rooms[roomId := s.rooms[roomId].(code := code)]
      && t.state.totalLinesOfCode == s.totalLinesOfCode + Count(code, '\n') + 1
      && t.state == s.(rooms := t.state.rooms, totalLinesOfCode := t.state.totalLinesOfCode)
      && t.outbox == [Send(RoomExcept(roomId, conn), CodeUpdate(code))]
  {
    if roomId in s.rooms then
      LinesCount(code);
      Transition(
        s.(rooms := s.rooms[roomId := s.rooms[roomId].(code := code)],
           totalLinesOfCode := s.totalLinesOfCode + |Lines(code)|),
        [Send(RoomExcept(roomId, conn), CodeUpdate(code))])
    else
      Transition(s, [])
  }

  /** The caller's username in `roomId`, `undefined` when the room or the entry is missing. */
  function UsernameIn(s: State, roomId: RoomId, conn: ConnId): (u: Option<Username>)
    ensures u.Some? <==> roomId in s.rooms && Has(s.rooms[roomId].participants, conn)
  {
    if roomId in s.rooms then Get(s.rooms[roomId].participants, conn) else None
  }

  /** `chat-message`: relayed to the room topic without the sender, whether or not the room exists. */
  function OnChatMessage(s: State, conn: ConnId, roomId: RoomId, message: string): (t: Transition)
    ensures t.state == s
    ensures t.outbox == [Send(RoomExcept(roomId, conn), ReceiveMessage(message, conn, UsernameIn(s, roomId, conn)))]
  {
    Transition(s, [Send(RoomExcept(roomId, conn), ReceiveMessage(message, conn, UsernameIn(s, roomId, conn)))])
  }

  /** `call-user`: relayed to the callee's private topic, only when the named room exists. */
  function OnCallUser(s: State, conn: ConnId, roomId: RoomId, userToCall: ConnId, signal: Signal): (t: Transition)
    ensures t.state == s
    ensures roomId !in s.rooms ==> t.outbox == []
    ensures roomId in s.rooms ==>
      t.outbox == [Send(RoomExcept(userToCall, conn), IncomingCall(signal, conn, UsernameIn(s, roomId, conn)))]
  {
    if roomId in s.rooms then
      Transition(s, [Send(RoomExcept(userToCall, conn), IncomingCall(signal, conn, UsernameIn(s, roomId, conn)))])
    else
      Transition(s, [])
  }

  /** `answer-call`: the signal alone, relayed to the caller's private topic. */
  function OnAnswerCall(s: State, conn: ConnId, to: ConnId, signal: Signal): (t: Transition)
    ensures t.state == s
    ensures t.outbox == [Send(RoomExcept(to, conn), CallAccepted(signal))]
  {
    Transition(s, [Send(RoomExcept(to, conn), CallAccepted(signal))])
  }

  /** The caller is the stored host of an existing room. */
  predicate IsHostOf(s: State, roomId: RoomId, conn: ConnId) {
    roomId in s.rooms && s.rooms[roomId].host == conn
  }

  /** `change-language`: host only; a no-op for anyone else or an unknown room. */
  function OnChangeLanguage(s: State, conn: ConnId, roomId: RoomId, newLanguage: string): (t: Transition)
    ensures !IsHostOf(s, roomId, conn) ==> t == Transition(s, [])
    ensures IsHostOf(s, roomId, conn) ==>
      && t.state == s.(rooms := s.rooms[roomId := s.rooms[roomId].(language := newLanguage)])
      && t.outbox == [Send(RoomAll(roomId), LanguageChanged(newLanguage))]
  {
    if IsHostOf(s, roomId, conn) then
      Transition(
        s.(rooms := s.rooms[roomId := s.rooms[roomId].(language := newLanguage)]),
        [Send(RoomAll(roomId), LanguageChanged(newLanguage))])
    else
      Transition(s, [])
  }

  /**
   The teardown shared by `leave-room` and `disconnect`: remove the caller from
   the room, tell the whole room, delete the room once it is empty, and
   decrement `activeUsers`.
   */
  function Depart(s: State, roomId: RoomId, conn: ConnId): (t: Transition)
    requires roomId in s.rooms && Has(s.rooms[roomId].participants, conn)
    ensures forall r :: r != roomId ==> (r in t.state.rooms <==> r in s.rooms)
    ensures forall r :: r != roomId && r in s.rooms ==> t.state.rooms[r] == s.rooms[r]
    ensures roomId in t.state.rooms ==>
      && t.state.rooms[roomId].participants != []
      && t.state.rooms[roomId] == s.rooms[roomId].(participants := t.state.rooms[roomId].participants)
    ensures !Has(Remaining(t.state, roomId), conn)
    ensures forall c :: c != conn ==> Get(Remaining(t.state, roomId), c) == Get(s.rooms[roomId].participants, c)
    ensures Keyed(s.rooms[roomId].participants) ==>
      var ps := s.rooms[roomId].participants;
      && (roomId in t.state.rooms <==> |ps| >= 2)
      && forall i :: 0 <= i < |ps| && ps[i].key == conn ==> Remaining(t.state, roomId) == ps[..i] + ps[i + 1..]
    ensures t.state == s.(rooms := t.state.rooms, activeUsers := s.activeUsers - 1)
    ensures t.outbox == [Send(RoomAll(roomId), UserLeft(
      conn, Get(s.rooms[roomId].participants, conn).value, Values(Remaining(t.state, roomId))))]
  {
    var room := s.rooms[roomId];
    var rest := Delete(room.participants, conn);
    var rooms := if |rest| == 0 then s.rooms - {roomId} else s.rooms[roomId := room.(participants := rest)];
    var t := Transition(
      s.(rooms := rooms, activeUsers := s.activeUsers - 1),
      [Send(RoomAll(roomId), UserLeft(conn, Get(room.participants, conn).value, Values(rest)))]);
    assert Remaining(t.state, roomId) == rest;
    assert Keyed(room.participants) ==> (roomId in t.state.rooms <==> |room.participants| >= 2) by {
      if Keyed(room.participants) {
        DeleteSize(room.participants, conn);
      }
    }
    assert Keyed(room.participants) ==> forall i :: 0 <= i < |room.participants| && room.participants[i].key == conn ==>
      rest == room.participants[..i] + room.participants[i + 1..] by {
      if Keyed(room.participants) {
        forall i | 0 <= i < |room.participants| && room.participants[i].key == conn
          ensures rest == room.participants[..i] + room.participants[i + 1..]
        {
          DeleteExactlyOne(room.participants, i);
        }
      }
    }
    t
  }

  /** `leave-room`: a no-op unless the caller is a participant; otherwise the teardown, and the caller leaves the topic. */
  function OnLeaveRoom(s: State, conn: ConnId, roomId: RoomId): (t: Transition)
    requires conn in s.conns
    ensures !(roomId in s.rooms && Has(s.rooms[roomId].participants, conn)) ==> t == Transition(s, [])
    ensures roomId in s.rooms && Has(s.rooms[roomId].participants, conn) ==>
      var d := Depart(s, roomId, conn);
      && t.state.conns == s.conns[conn := s.conns[conn].(topics := s.conns[conn].topics - {roomId})]
      && t.state.conns[conn].currentRoom == s.conns[conn].currentRoom
      && t.state == d.state.(conns := t.state.conns)
      && t.outbox == d.outbox
  {
    if roomId in s.rooms && Has(s.rooms[roomId].participants, conn) then
      var d := Depart(s, roomId, conn);
      var c := s.conns[conn];
      Transition(d.state.(conns := s.conns[conn := c.(topics := c.topics - {roomId})]), d.outbox)
    else
      Transition(s, [])
  }

  /**
   `end-room`: host only. Tells the whole room, takes every live participant
   out of the room topic and deletes the room. `activeUsers` is left as it
   was, and so is every participant's `currentRoom`.
   */
  function OnEndRoom(s: State, conn: ConnId, roomId: RoomId): (t: Transition)
    ensures !IsHostOf(s, roomId, conn) ==> t == Transition(s, [])
    ensures IsHostOf(s, roomId, conn) ==>
      var ps := s.rooms[roomId].participants;
      && t.state.rooms == s.rooms - {roomId}
      && t.state.conns.Keys == s.conns.Keys
      && (forall c :: c in s.conns && Has(ps, c) ==>
            t.state.conns[c] == s.conns[c].(topics := s.conns[c].topics - {roomId}))
      && (forall c :: c in s.conns && !Has(ps, c) ==> t.state.conns[c] == s.conns[c])
      && t.state == s.(rooms := t.state.rooms, conns := t.state.conns)
      && t.outbox == [Send(RoomAll(roomId), RoomEnded(RoomEndedNotice))]
  {
    if IsHostOf(s, roomId, conn) then
      var ps := s.rooms[roomId].participants;
      var conns := map c | c in s.conns ::
        if Has(ps, c) then s.conns[c].(topics := s.conns[c].topics - {roomId}) else s.conns[c];
      Transition(
        s.(rooms := s.rooms - {roomId}, conns := conns),
        [Send(RoomAll(roomId), RoomEnded(RoomEndedNotice))])
    else
      Transition(s, [])
  }

  /** `join-voice`: announced to the whole room when it exists; nothing is stored. */
  function OnJoinVoice(s: State, conn: ConnId, roomId: RoomId): (t: Transition)
    ensures t.state == s
    ensures roomId !in s.rooms ==> t.outbox == []
    ensures roomId in s.rooms ==>
      t.outbox == [Send(RoomAll(roomId), VoiceParticipantJoined(conn, UsernameIn(s, roomId, conn)))]
  {
    if roomId in s.rooms then
      Transition(s, [Send(RoomAll(roomId), VoiceParticipantJoined(conn, UsernameIn(s, roomId, conn)))])
    else
      Transition(s, [])
  }

  /** `leave-voice`: announced to the whole topic, unconditionally. */
  function OnLeaveVoice(s: State, conn: ConnId, roomId: RoomId): (t: Transition)
    ensures t.state == s
    ensures t.outbox == [Send(RoomAll(roomId), VoiceParticipantLeft(conn))]
  {
    Transition(s, [Send(RoomAll(roomId), VoiceParticipantLeft(conn))])
  }

  /** The room `disconnect` tears down: `currentRoom`, if truthy, existing, and still listing the caller. */
  predicate DisconnectTearsDown(s: State, conn: ConnId)
    requires conn in s.conns
  {
    var cur := s.conns[conn].currentRoom;
    cur.Some? && cur.value != "" && cur.value in s.rooms && Has(s.rooms[cur.value].participants, conn)
  }

  /**
   `disconnect`: the connection is gone; only the room named by `currentRoom`
   is torn down, so entries the caller left behind in rooms it switched away
   from stay.
   */
  function OnDisconnect(s: State, conn: ConnId): (t: Transition)
    requires conn in s.conns
    ensures t.state.conns == s.conns - {conn}
    ensures !DisconnectTearsDown(s, conn) ==> t == Transition(s.(conns := s.conns - {conn}), [])
    ensures DisconnectTearsDown(s, conn) ==>
      var d := Depart(s, s.conns[conn].currentRoom.value, conn);
      t == Transition(d.state.(conns := s.conns - {conn}), d.outbox)
  {
    var gone := s.(conns := s.conns - {conn});
    if DisconnectTearsDown(s, conn) then
      Depart(gone, s.conns[conn].currentRoom.value, conn)
    else
      Transition(gone, [])
  }

  /** Socket.IO delivers `connection` for a fresh id and every other event only on a live connection. */
  predicate Callable(s: State, conn: ConnId, req: Request) {
    if req.Connect? then conn !in s.conns else conn in s.conns
  }

  /** One event on one connection, handled to completion. */
  function Step(s: State, conn: ConnId, req: Request): (t: Transition)
    requires Callable(s, conn, req)
  {
    match req
    case Connect => OnConnect(s, conn)
    case JoinRoom(roomId, language, username) => OnJoinRoom(s, conn, roomId, language, username)
    case CodeChange(roomId, code, _) => OnCodeChange(s, conn, roomId, code)
    case ChatMessage(roomId, message) => OnChatMessage(s, conn, roomId, message)
    case CallUser(roomId, userToCall, signal) => OnCallUser(s, conn, roomId, userToCall, signal)
    case AnswerCall(to, signal) => OnAnswerCall(s, conn, to, signal)
    case ChangeLanguage(roomId, newLanguage) => OnChangeLanguage(s, conn, roomId, newLanguage)
    case LeaveRoom(roomId) => OnLeaveRoom(s, conn, roomId)
    case EndRoom(roomId) => OnEndRoom(s, conn, roomId)
    case JoinVoice(roomId) => OnJoinVoice(s, conn, roomId)
    case LeaveVoice(roomId) => OnLeaveVoice(s, conn, roomId)
    case Disconnect => OnDisconnect(s, conn)
  }
}

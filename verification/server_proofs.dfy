/**
 Properties of the session hub that relate its handlers: the invariant every
 reachable state keeps, host stability, and who may change or remove a room.
 */
module ServerProofs {
  import opened Wrappers
  import opened InsertionMap
  import opened Ids
  import opened Server

  /** Total number of participant entries over all rooms. */
  ghost function Occupancy(rooms: map<RoomId, Room>): nat
    decreases |rooms|
  {
    if rooms == map[] then 0
    else
      var r :| r in rooms;
      |rooms[r].participants| + Occupancy(rooms - {r})
  }

  /** The occupancy of a map splits at any of its rooms. */
  lemma {:induction false} OccupancyWithout(rooms: map<RoomId, Room>, r: RoomId)
    requires r in rooms
    ensures Occupancy(rooms) == |rooms[r].participants| + Occupancy(rooms - {r})
    decreases |rooms|
  {
    var q :| q in rooms && Occupancy(rooms) == |rooms[q].participants| + Occupancy(rooms - {q});
    if q != r {
      assert (rooms - {q}).Keys == rooms.Keys - {q};
      assert (rooms - {r}).Keys == rooms.Keys - {r};
      OccupancyWithout(rooms - {q}, r);
      OccupancyWithout(rooms - {r}, q);
      assert rooms - {q} - {r} == rooms - {r} - {q};
    }
  }

  /** Storing `room` at `r` replaces whatever `r` contributed by the new room's size. */
  lemma OccupancyStore(rooms: map<RoomId, Room>, r: RoomId, room: Room)
    ensures Occupancy(rooms[r := room]) + (if r in rooms then |rooms[r].participants| else 0)
         == Occupancy(rooms) + |room.participants|
  {
    OccupancyWithout(rooms[r := room], r);
    assert rooms[r := room] - {r} == rooms - {r};
    if r in rooms {
      OccupancyWithout(rooms, r);
    } else {
      assert rooms - {r} == rooms;
    }
  }

  /** Every stored room has at least one participant and lists nobody twice. */
  ghost predicate RoomsWellFormed(rooms: map<RoomId, Room>) {
    forall r :: r in rooms ==> rooms[r].participants != [] && Keyed(rooms[r].participants)
  }

  /**
   The invariant of the hub. Each join adds at most one participant entry and
   increments both `activeUsers` and `totalSessions`; each leave or disconnect
   removes one entry and decrements `activeUsers`; `end-room` drops entries
   without touching the counters. So `activeUsers` bounds the entries from
   above, and `totalSessions` bounds `activeUsers`.
   */
  ghost predicate Inv(s: State) {
    && RoomsWellFormed(s.rooms)
    && s.activeUsers >= Occupancy(s.rooms)
    && s.totalSessions >= s.activeUsers
    && s.totalLinesOfCode >= 0
  }

  lemma InitSatisfiesInv()
    ensures Inv(Init)
  {
  }

  /** The teardown of leave and disconnect keeps the invariant. */
  lemma {:induction false} DepartPreservesInv(s: State, roomId: RoomId, conn: ConnId)
    requires Inv(s)
    requires roomId in s.rooms && Has(s.rooms[roomId].participants, conn)
    ensures Inv(Depart(s, roomId, conn).state)
  {
    var t := Depart(s, roomId, conn).state;
    var ps := s.rooms[roomId].participants;
    DeleteSize(ps, conn);
    OccupancyWithout(s.rooms, roomId);
    if roomId in t.rooms {
      assert t.rooms == s.rooms[roomId := t.rooms[roomId]];
      OccupancyStore(s.rooms, roomId, t.rooms[roomId]);
    } else {
      assert t.rooms == s.rooms - {roomId};
    }
  }

  /** Every handler keeps the invariant. */
  lemma {:induction false} StepPreservesInv(s: State, conn: ConnId, req: Request)
    requires Inv(s)
    requires Callable(s, conn, req)
    ensures Inv(Step(s, conn, req).state)
  {
    var t := Step(s, conn, req).state;
    match req
    case JoinRoom(roomId, language, username) =>
      if roomId in t.rooms {
        assert t.rooms == s.rooms[roomId := t.rooms[roomId]];
        OccupancyStore(s.rooms, roomId, t.rooms[roomId]);
        if roomId in s.rooms {
          var before := s.rooms[roomId].participants;
          var after := t.rooms[roomId].participants;
          if Has(before, conn) {
            assert |after| == |Keys(after)| == |Keys(before)| == |before|;
          }
        }
      }
    case CodeChange(roomId, code, _) =>
      if roomId in s.rooms {
        OccupancyStore(s.rooms, roomId, t.rooms[roomId]);
      }
    case ChangeLanguage(roomId, newLanguage) =>
      if IsHostOf(s, roomId, conn) {
        OccupancyStore(s.rooms, roomId, t.rooms[roomId]);
      }
    case LeaveRoom(roomId) =>
      if roomId in s.rooms && Has(s.rooms[roomId].participants, conn) {
        DepartPreservesInv(s, roomId, conn);
      }
    case EndRoom(roomId) =>
      if IsHostOf(s, roomId, conn) {
        OccupancyWithout(s.rooms, roomId);
      }
    case Disconnect =>
      if DisconnectTearsDown(s, conn) {
        DepartPreservesInv(s.(conns := s.conns - {conn}), s.conns[conn].currentRoom.value, conn);
      }
    case _ =>
  }

  /** A call is an event on a connection. */
  datatype Call = Call(conn: ConnId, req: Request)

  /** Every event of the trace arrives on a connection that may deliver it at that point. */
  ghost predicate Replayable(s: State, trace: seq<Call>)
    decreases |trace|
  {
    trace == [] ||
    (Callable(s, trace[0].conn, trace[0].req) &&
     Replayable(Step(s, trace[0].conn, trace[0].req).state, trace[1..]))
  }

  /** The state after handling the events of `trace` in order. */
  ghost function Run(s: State, trace: seq<Call>): State
    requires Replayable(s, trace)
    decreases |trace|
  {
    if trace == [] then s
    else Run(Step(s, trace[0].conn, trace[0].req).state, trace[1..])
  }

  /**
   After any sequence of events from a start satisfying the invariant (the
   process start in particular), every room is non-empty and `activeUsers`
   is at least the number of participant entries, hence never negative.
   */
  lemma {:induction false} RunPreservesInv(s: State, trace: seq<Call>)
    requires Inv(s)
    requires Replayable(s, trace)
    ensures Inv(Run(s, trace))
    ensures Run(s, trace).activeUsers >= 0
    ensures forall r :: r in Run(s, trace).rooms ==> |Run(s, trace).rooms[r].participants| >= 1
    decreases |trace|
  {
    if trace != [] {
      StepPreservesInv(s, trace[0].conn, trace[0].req);
      RunPreservesInv(Step(s, trace[0].conn, trace[0].req).state, trace[1..]);
    }
  }

  /**
   `room.host` is written only when the room is created: a room that exists
   before and after any event keeps its host, and a room that appears was
   created by the caller's own `join-room`, with the caller as host and only
   participant.
   */
  lemma HostNeverReassigned(s: State, conn: ConnId, req: Request)
    requires Callable(s, conn, req)
    ensures var t := Step(s, conn, req).state;
      forall r :: r in s.rooms && r in t.rooms ==> t.rooms[r].host == s.rooms[r].host
    ensures var t := Step(s, conn, req).state;
      forall r :: r !in s.rooms && r in t.rooms ==>
        && req.JoinRoom? && req.roomId == r
        && t.rooms[r].host == conn
        && Keys(t.rooms[r].participants) == [conn]
  {
  }

  /** Only the stored host, through `change-language`, changes a room's language. */
  lemma OnlyHostChangesLanguage(s: State, conn: ConnId, req: Request)
    requires Callable(s, conn, req)
    ensures var t := Step(s, conn, req).state;
      forall r :: r in s.rooms && r in t.rooms && t.rooms[r].language != s.rooms[r].language ==>
        req.ChangeLanguage? && req.roomId == r && s.rooms[r].host == conn
  {
  }

  /**
   A room's code changes only through `code-change` on that room, and that
   handler requires neither membership nor host status: any connection,
   inside the room or not, overwrites it.
   */
  lemma AnyoneOverwritesCode(s: State, conn: ConnId, req: Request)
    requires Callable(s, conn, req)
    ensures var t := Step(s, conn, req).state;
      forall r :: r in s.rooms && r in t.rooms && t.rooms[r].code != s.rooms[r].code ==>
        req.CodeChange? && req.roomId == r
    ensures req.CodeChange? && req.roomId in s.rooms ==>
      Step(s, conn, req).state.rooms[req.roomId].code == req.code
  {
  }

  /**
   A room disappears only when its host ends it, or when its sole participant
   leaves it or disconnects while it is their `currentRoom`.
   */
  lemma RoomRemovalCauses(s: State, conn: ConnId, req: Request)
    requires Inv(s)
    requires Callable(s, conn, req)
    ensures var t := Step(s, conn, req).state;
      forall r :: r in s.rooms && r !in t.rooms ==>
        || (req == EndRoom(r) && s.rooms[r].host == conn)
        || ((req == LeaveRoom(r) || (req.Disconnect? && s.conns[conn].currentRoom == Some(r)))
            && Keys(s.rooms[r].participants) == [conn])
  {
    var t := Step(s, conn, req).state;
    forall r | r in s.rooms && r !in t.rooms
      ensures || (req == EndRoom(r) && s.rooms[r].host == conn)
              || ((req == LeaveRoom(r) || (req.Disconnect? && s.conns[conn].currentRoom == Some(r)))
                  && Keys(s.rooms[r].participants) == [conn])
    {
      var ps := s.rooms[r].participants;
      if req.LeaveRoom? || req.Disconnect? {
        var i := HasAt(ps, conn);
        assert |ps| == 1;
        assert Keys(ps) == [ps[0].key];
      }
    }
  }

  /** The `targetUserId` a client attaches to `code-change` has no effect. */
  lemma CodeChangeIgnoresTarget(s: State, conn: ConnId, roomId: RoomId, code: string, a: Option<ConnId>, b: Option<ConnId>)
    requires conn in s.conns
    ensures Step(s, conn, CodeChange(roomId, code, a)) == Step(s, conn, CodeChange(roomId, code, b))
  {
  }
}

/**
 Concrete runs of the session hub that show where its handlers check
 nothing: a room outliving its host's membership, and participant entries left behind by
 switching rooms.
 */
module Scenarios {
  import opened Wrappers
  import opened InsertionMap
  import opened Server

  /** Connections `a` and `b` are live; `a` created room `r1` in python and `b` joined it. */
  function TwoInRoom(): (s: State)
    ensures "r1" in s.rooms && "a" in s.conns && "b" in s.conns
    ensures s.rooms["r1"].host == "a"
    ensures Keys(s.rooms["r1"].participants) == ["a", "b"]
    ensures s.rooms["r1"].language == "python" && s.rooms["r1"].code == DefaultCode
    ensures s.conns["b"] == Conn(Some("r1"), {"r1"})
  {
    var s1 := Step(Init, "a", Connect).state;
    var s2 := Step(s1, "b", Connect).state;
    var s3 := Step(s2, "a", JoinRoom("r1", Some("python"), "alice")).state;
    assert s3.rooms["r1"].participants == [Entry("a", "alice")];
    var s4 := Step(s3, "b", JoinRoom("r1", None, "bob")).state;
    assert s4.rooms["r1"].participants == [Entry("a", "alice"), Entry("b", "bob")];
    s4
  }

  /**
   When the host leaves, the room stays with the departed host recorded:
   no remaining participant can change its language or end it, while the
   departed host's connection, still open, can do both.
   */
  lemma HostLeavesRoomKeepsAuthority()
    ensures var s := Step(TwoInRoom(), "a", LeaveRoom("r1")).state;
      && "r1" in s.rooms
      && s.rooms["r1"].host == "a"
      && Keys(s.rooms["r1"].participants) == ["b"]
      && Step(s, "b", ChangeLanguage("r1", "java")) == Transition(s, [])
      && Step(s, "b", EndRoom("r1")) == Transition(s, [])
      && Step(s, "a", ChangeLanguage("r1", "java")).state.rooms["r1"].language == "java"
      && "r1" !in Step(s, "a", EndRoom("r1")).state.rooms
  {
    var s0 := TwoInRoom();
    var ps := s0.rooms["r1"].participants;
    assert ps[0].key == "a";
    assert ps[..0] + ps[1..] == [ps[1]];
  }

  /**
   Switching rooms with `join-room` leaves the old entry in place, and the
   later disconnect only tears down the room it switched to.
   */
  lemma SwitchingRoomsLeavesStaleEntry()
    ensures var s5 := Step(TwoInRoom(), "b", JoinRoom("r2", Some("java"), "bob")).state;
      var s6 := Step(s5, "b", Disconnect).state;
      && "b" !in s6.conns
      && "r2" !in s6.rooms
      && "r1" in s6.rooms
      && Keys(s6.rooms["r1"].participants) == ["a", "b"]
  {
    var s5 := Step(TwoInRoom(), "b", JoinRoom("r2", Some("java"), "bob")).state;
    assert s5.rooms["r2"].participants == [Entry("b", "bob")];
    assert s5.conns["b"].currentRoom == Some("r2");
  }

  /**
   A failed join to an unknown room still moves `currentRoom`, so the
   disconnect that follows finds nothing to tear down and the entry in the
   room the connection really was in stays for good.
   */
  lemma FailedJoinStrandsEntry()
    ensures var s5 := Step(TwoInRoom(), "b", JoinRoom("nowhere", None, "bob"));
      var s6 := Step(s5.state, "b", Disconnect);
      && s5.outbox == [Send(ToConn("b"), Error(RoomNotFound))]
      && s5.state.conns["b"] == Conn(Some("nowhere"), {})
      && s6.outbox == []
      && Keys(s6.state.rooms["r1"].participants) == ["a", "b"]
  {
  }
}

/**
 The editor page's rules: whose code an edit is sent for, when the editor is
 writable, which requests only a host sends, the chat send guard, and the
 voice-participant map kept from server events.
 */
module Client {
  import opened Wrappers
  import opened InsertionMap
  import opened Text
  import opened Ids
  import opened Complexity

  /** A chat line: `sender` is a connection id, or `'me'` for a line the user sent. */
  datatype ChatLine = ChatLine(message: string, sender: string, username: Option<Username>)

  /** The page state the rules read and write (`roomId` and `viewingUserId` start as `null`). */
  datatype Page = Page(
    socketId: ConnId,
    isInRoom: bool,
    roomId: Option<RoomId>,
    isHost: bool,
    viewingUserId: Option<ConnId>,
    code: string,
    output: string,
    messages: seq<ChatLine>,
    newMessage: string,
    voiceParticipants: seq<Entry<ConnId, Option<Username>>>,
    complexity: Analysis)

  /** The requests the page sends. */
  datatype Emit =
    | EmitCodeChange(roomId: Option<RoomId>, code: string, targetUserId: Option<ConnId>)
    | EmitChatMessage(roomId: Option<RoomId>, message: string)
    | EmitLeaveRoom(roomId: Option<RoomId>)
    | EmitEndRoom(roomId: Option<RoomId>)
    | EmitChangeLanguage(roomId: Option<RoomId>, newLanguage: string)
    | EmitViewUserCode(roomId: Option<RoomId>, viewedUserId: ConnId)

  datatype Reaction = Reaction(page: Page, emits: seq<Emit>)

  /** The code the editor shows after leaving a room. */
  const DefaultCode: string := "// Start coding here..."

  /** `targetUserId` of an edit: the viewed user for a host, the user's own id otherwise. */
  function EditTarget(p: Page): Option<ConnId> {
    if p.isHost then p.viewingUserId else Some(p.socketId)
  }

  /** The editor's `readOnly` option. */
  predicate ReadOnly(p: Page) {
    !(p.isHost || p.viewingUserId == Some(p.socketId))
  }

  /**
   The editor is writable exactly when the user is a host or the edits would
   be sent for the buffer on screen; a non-host who can type is always
   editing their own code.
   */
  lemma WritableMatchesTarget(p: Page)
    ensures !ReadOnly(p) <==> p.isHost || EditTarget(p) == p.viewingUserId
    ensures !ReadOnly(p) ==> EditTarget(p) == p.viewingUserId
    ensures !ReadOnly(p) && !p.isHost ==> EditTarget(p) == Some(p.socketId)
  {
  }

  /**
   `handleCodeChange`: shows the new code, sends it with the edit target, and
   re-runs the complexity analysis, whose labels stay as they were when it
   throws. The starting `O(1)` time label is never produced again, so when
   it is on screen it is the one from before.
   */
  function HandleCodeChange(p: Page, d: Detectors, newCode: string): (r: Reaction)
    ensures r.emits == [EmitCodeChange(p.roomId, newCode, EditTarget(p))]
    ensures !p.isHost ==> r.emits[0].targetUserId == Some(p.socketId)
    ensures r.page.code == newCode
    ensures Analyze(d, newCode).Success? ==> r.page.complexity == Analyze(d, newCode).value
    ensures Analyze(d, newCode).Failure? ==> r.page.complexity == p.complexity
    ensures r.page.complexity.time == InitialAnalysis.time ==> r.page.complexity == p.complexity
    ensures r.page == p.(code := newCode, complexity := r.page.complexity)
  {
    var shown := p.(code := newCode);
    var emits := [EmitCodeChange(p.roomId, newCode, EditTarget(p))];
    match Analyze(d, newCode)
    case Success(a) => Reaction(shown.(complexity := a), emits)
    case Failure(_) => Reaction(shown, emits)
  }

  /**
   `sendMessage`: a message that is empty after trimming is dropped; any
   other is sent once, appended to the chat as the user's own, and the input
   is cleared.
   */
  function SendMessage(p: Page): (r: Reaction)
    ensures (forall i :: 0 <= i < |p.newMessage| ==> IsJsWhitespace(p.newMessage[i])) ==> r == Reaction(p, [])
    ensures (exists i :: 0 <= i < |p.newMessage| && !IsJsWhitespace(p.newMessage[i])) ==>
      && r.emits == [EmitChatMessage(p.roomId, p.newMessage)]
      && r.page == p.(messages := p.messages + [ChatLine(p.newMessage, "me", None)], newMessage := "")
  {
    TrimEmptyIffBlank(p.newMessage);
    if Trim(p.newMessage) != "" then
      Reaction(
        p.(messages := p.messages + [ChatLine(p.newMessage, "me", None)], newMessage := ""),
        [EmitChatMessage(p.roomId, p.newMessage)])
    else
      Reaction(p, [])
  }

  /**
   `handleLeaveRoom`: sends `leave-room` and resets the room view. Tearing
   down the call and the microphone stream is not modelled.
   */
  function HandleLeaveRoom(p: Page): (r: Reaction)
    ensures r.emits == [EmitLeaveRoom(p.roomId)]
    ensures !r.page.isInRoom && r.page.messages == [] && r.page.code == DefaultCode && r.page.output == ""
    ensures r.page == p.(isInRoom := r.page.isInRoom, messages := r.page.messages, code := r.page.code, output := r.page.output)
  {
    Reaction(p.(isInRoom := false, messages := [], code := DefaultCode, output := ""), [EmitLeaveRoom(p.roomId)])
  }

  /** `handleEndRoom`: a host sends `end-room` and then leaves; for anyone else nothing happens. */
  function HandleEndRoom(p: Page): (r: Reaction)
    ensures !p.isHost ==> r == Reaction(p, [])
    ensures p.isHost ==>
      && r.emits == [EmitEndRoom(p.roomId), EmitLeaveRoom(p.roomId)]
      && r.page == HandleLeaveRoom(p).page
    ensures EmitEndRoom(p.roomId) in r.emits <==> p.isHost
  {
    if p.isHost then
      var left := HandleLeaveRoom(p);
      var r := Reaction(left.page, [EmitEndRoom(p.roomId)] + left.emits);
      assert r.emits[0] == EmitEndRoom(p.roomId);
      r
    else
      Reaction(p, [])
  }

  /** `handleLanguageChange`: only a host sends `change-language`; the page waits for the server's echo. */
  function HandleLanguageChange(p: Page, newLanguage: string): (r: Reaction)
    ensures r.page == p
    ensures !p.isHost ==> r.emits == []
    ensures p.isHost ==> r.emits == [EmitChangeLanguage(p.roomId, newLanguage)]
  {
    if p.isHost then Reaction(p, [EmitChangeLanguage(p.roomId, newLanguage)]) else Reaction(p, [])
  }

  /**
   `handleViewUserCode`: switches the viewed user and asks for their code. The
   loading indicator is not modelled.
   */
  function HandleViewUserCode(p: Page, userId: ConnId): (r: Reaction)
    ensures r.page == p.(viewingUserId := Some(userId))
    ensures r.emits == [EmitViewUserCode(p.roomId, userId)]
    ensures ReadOnly(r.page) <==> !p.isHost && userId != p.socketId
    ensures p.isHost ==> EditTarget(r.page) == Some(userId)
    ensures EditTarget(r.page) == (if p.isHost then Some(userId) else Some(p.socketId))
  {
    Reaction(p.(viewingUserId := Some(userId)), [EmitViewUserCode(p.roomId, userId)])
  }

  /**
   The `voice-participants` listener: the map is replaced by the listed
   pairs, each listed user holding the name of their last listing.
   */
  function OnVoiceParticipants(p: Page, participants: seq<(ConnId, Option<Username>)>): (r: Page)
    ensures Keyed(r.voiceParticipants)
    ensures forall i :: 0 <= i < |participants| ==> Has(r.voiceParticipants, participants[i].0)
    ensures forall i :: 0 <= i < |participants| && LastOccurrence(participants, i) ==>
      Get(r.voiceParticipants, participants[i].0) == Some(participants[i].1)
    ensures forall k :: Get(r.voiceParticipants, k).Some? ==> exists i :: 0 <= i < |participants| && participants[i].0 == k
    ensures r == p.(voiceParticipants := r.voiceParticipants)
  {
    p.(voiceParticipants := FromEntries(participants))
  }

  /** The `voice-participant-joined` listener: sets exactly `userId` to `username`. */
  function OnVoiceParticipantJoined(p: Page, userId: ConnId, username: Option<Username>): (r: Page)
    ensures Get(r.voiceParticipants, userId) == Some(username)
    ensures forall k :: k != userId ==> Get(r.voiceParticipants, k) == Get(p.voiceParticipants, k)
    ensures Keyed(p.voiceParticipants) ==> Keyed(r.voiceParticipants)
    ensures r == p.(voiceParticipants := r.voiceParticipants)
  {
    p.(voiceParticipants := Set(p.voiceParticipants, userId, username))
  }

  /** The `voice-participant-left` listener: deletes exactly `userId`. */
  function OnVoiceParticipantLeft(p: Page, userId: ConnId): (r: Page)
    ensures !Has(r.voiceParticipants, userId)
    ensures forall k :: k != userId ==> Get(r.voiceParticipants, k) == Get(p.voiceParticipants, k)
    ensures Keyed(p.voiceParticipants) ==> Keyed(r.voiceParticipants)
    ensures r == p.(voiceParticipants := r.voiceParticipants)
  {
    p.(voiceParticipants := Delete(p.voiceParticipants, userId))
  }

  /** A join followed by a leave of the same user restores the map when that user was not in it. */
  lemma VoiceJoinLeaveRestores(p: Page, userId: ConnId, username: Option<Username>)
    requires !Has(p.voiceParticipants, userId)
    ensures OnVoiceParticipantLeft(OnVoiceParticipantJoined(p, userId, username), userId) == p
  {
    var vp := p.voiceParticipants;
    assert Set(vp, userId, username) == vp + [Entry(userId, username)];
    DeleteAppended(vp, userId, username);
  }
}

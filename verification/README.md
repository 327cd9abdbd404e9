# Collaborative IDE session hub, in Dafny

This project models the coordination core of a collaborative coding site.
The backend is a Socket.IO server that keeps rooms in memory. Each room has
a language, an insertion-ordered map from connection id to username, one
shared code string and a host. The server also keeps three usage counters
(`activeUsers`, `totalSessions`, `totalLinesOfCode`) and, per connection,
its `currentRoom` and the room topics it is in. The frontend adds a few
client-side rules: whose code an edit is sent for, when the editor is
writable, which requests only a host sends, the chat send guard, the
voice-participant map, a line-based complexity estimate, and a filter over
a fixed list of practice problems.

Every socket handler is a pure function from the hub's `State` to a
`Transition`: the next state plus an outbox. Each outbox entry is an event
addressed to a `Target`: the caller (`ToConn`), a topic minus the caller
(`RoomExcept`, which is `socket.to`), or a whole topic (`RoomAll`, which is
`io.to`). `Server.Step` dispatches one event on one connection.

Modules:

- `Wrappers`: `Option` and `Result`.
- `Ids`: connection, room and user identifiers.
- `InsertionMap`: a JavaScript `Map` as a sequence of entries in insertion order.
- `Text`: `split('\n')`, `includes` and `trim`.
- `Server`: the room store, the handlers and `Step`.
- `ServerProofs`: the hub invariant and the lemmas that span several handlers.
- `Scenarios`: concrete runs of the hub.
- `Client`: the editor-page rules.
- `Complexity`: the complexity estimate.
- `Problems`: the problem list and its difficulty filter.

Places where the code checks less, or does less, than one might expect; the model keeps each as written:

- The server keeps one `code` string per room. It has no per-user buffers, no view state and no handler for `view-user-code`. `code-change` does not read `targetUserId`, and it checks neither membership nor host status.
- There is no voice roster on the server. `join-voice` and `leave-voice` only broadcast.
- The relays check nothing about their target. `call-user` checks only that the named room exists. `answer-call` relays unconditionally. `chat-message` is relayed even for an unknown room, with an `undefined` username.
- `room.host` is written only at creation. A room whose host has left keeps the departed host. No remaining participant can change its language or end it; only the departed host's connection, while it stays open, still can (`Scenarios.HostLeavesRoomKeepsAuthority`).
- `join-room` into another room does not remove the caller from its old room's participants. `disconnect` tears down only `currentRoom`, so the old entry stays (`Scenarios.SwitchingRoomsLeavesStaleEntry`). A failed join to an unknown room still moves `currentRoom` (`Scenarios.FailedJoinStrandsEntry`).
- `end-room` does not decrement `activeUsers`. So the invariant is that `activeUsers` is at least the number of participant entries, not equal to it.
- JavaScript falsiness is modelled where the code branches on it. `!language` is true for a missing language and for `''`. `currentRoom &&` is false for `null` and for `''`.
- In `analyzeComplexity` the fallback test of the time table reads `line`, which is only in scope inside the loop. So whenever no exponential operation, no loop, no sorting and no recursion was found, the analysis throws a ReferenceError, and the time label `O(1)` is never produced (`Complexity.TimeOrder`, `Complexity.PlainCodeThrows`). A `def` line matching the header test but not the name test makes the name lookup throw a TypeError (`Complexity.ScanLine`). Both defects are kept as thrown errors, and `Client.HandleCodeChange` keeps the previous labels when the analysis throws.

## Model

| member | source | states |
|---|---|---|
| InsertionMap.Get | Backend/server.js:312 | `participants.get(id)` is defined exactly when the id is present |
| InsertionMap.GetAt | Backend/server.js:346 | a stored entry is found by its key and, with distinct keys, yields its own value |
| InsertionMap.Set | Backend/server.js:266 | `participants.set` binds the key to the value and leaves every other key's value alone; an existing key keeps its position, a new one is appended; keys stay distinct |
| InsertionMap.Delete | Backend/server.js:347 | `participants.delete` removes the key, leaves every other key's value alone, is the identity on an absent key, and keeps keys distinct |
| InsertionMap.DeleteExactlyOne | Backend/server.js:347 | deleting a key removes exactly its entry and keeps the entries before and after it in order |
| InsertionMap.DeleteSize | Backend/server.js:357 | deleting a present key shrinks the map by exactly one, which is what the size-zero test relies on |
| InsertionMap.DeleteAppended | Frontend/src/App.jsx:91-106 | setting a new key and then deleting it gives back the original map |
| InsertionMap.FromEntries | Frontend/src/App.jsx:88 | `new Map(pairs)` has distinct keys, holds every listed key with the value of its last occurrence, and holds no key that is not listed |
| Text.Lines | Backend/server.js:300 | `split('\n')` returns at least one piece |
| Text.LinesCount | Backend/server.js:300 | the number of pieces of `split('\n')` is the number of newlines plus one |
| Text.LinesHaveNoNewline | Frontend/src/App.jsx:163 | no piece of `split('\n')` contains a newline |
| Text.JoinLinesSplit | Frontend/src/App.jsx:163 | joining the pieces with newlines gives back the code |
| Text.IncludesAt | Frontend/src/App.jsx:188 | `includes` holds exactly when the pattern occurs at some offset |
| Text.TrimStart | Frontend/src/App.jsx:268 | the result is a suffix starting at a non-whitespace character, and only whitespace was dropped |
| Text.TrimEnd | Frontend/src/App.jsx:268 | the result is a prefix ending at a non-whitespace character, and only whitespace was dropped |
| Text.TrimEmptyIffBlank | Frontend/src/App.jsx:268 | `trim()` is empty exactly when every character is JavaScript whitespace |
| Server.OnConnect | Backend/server.js:222-225 | a new connection starts with no `currentRoom` and no room topics; nothing else changes |
| Server.OnJoinRoom | Backend/server.js:236-291 | `currentRoom` is set and old topics are left before the lookup; an unknown room without a language only sends an error to the caller; an unknown room with a language creates exactly one room hosted by the caller with the default code and only the caller; a known room keeps its language, code and host; `isHost` is caller == host; `user-joined` carries the same list as `room-state`; other rooms are untouched; both counters grow by one on success |
| Server.OnCodeChange | Backend/server.js:293-308 | on an existing room the code is overwritten, sent to the room minus the sender, and `totalLinesOfCode` grows by newlines + 1, with no membership or host check; an unknown room changes nothing |
| Server.UsernameIn | Backend/server.js:312 | the looked-up username is defined exactly when the room exists and lists the caller |
| Server.OnChatMessage | Backend/server.js:310-318 | the message goes to the room topic minus the sender whether or not the room exists, with the sender's id and looked-up name; no state changes |
| Server.OnCallUser | Backend/server.js:320-329 | the signal is relayed to the callee's private topic only when the named room exists; no state changes |
| Server.OnAnswerCall | Backend/server.js:331-333 | the signal is relayed to the caller's private topic unconditionally; no state changes |
| Server.OnChangeLanguage | Backend/server.js:335-341 | only the stored host of an existing room changes its language, and the change is announced to the whole room; otherwise nothing happens |
| Server.Depart | Backend/server.js:345-367 | removes exactly the caller's entry and keeps the others in order; the room is deleted exactly when it had one participant; `activeUsers` drops by one; `user-left` carries the remaining list; other rooms are untouched |
| Server.OnLeaveRoom | Backend/server.js:343-369 | a non-member's leave is a no-op; a member's leave is the teardown plus leaving the room topic, with `currentRoom` untouched |
| Server.OnEndRoom | Backend/server.js:371-389 | only the stored host ends a room; `room-ended` goes to the whole room, every live participant leaves the topic, the room is deleted, and the counters are left as they were |
| Server.OnJoinVoice | Backend/server.js:391-400 | an existing room is told the caller joined voice, with the looked-up name; nothing is stored |
| Server.OnLeaveVoice | Backend/server.js:402-406 | the topic is told the caller left voice, unconditionally; nothing is stored |
| Server.OnDisconnect | Backend/server.js:408-438 | the connection is dropped; the teardown applies only to a truthy `currentRoom` that exists and still lists the caller |
| ServerProofs.OccupancyWithout | Backend/server.js:21 | the total number of entries over all rooms splits at any room |
| ServerProofs.OccupancyStore | Backend/server.js:257 | storing a room changes the total by the difference in that room's size |
| ServerProofs.InitSatisfiesInv | Backend/server.js:21-26 | the empty room map with zero counters satisfies the hub invariant |
| ServerProofs.DepartPreservesInv | Backend/server.js:343-369 | the leave and disconnect teardown keeps every room non-empty and keeps `activeUsers` at or above the entry count |
| ServerProofs.StepPreservesInv | Backend/server.js:222-439 | every handler keeps rooms non-empty with distinct participants, `activeUsers` at or above the entry count, `totalSessions` at or above `activeUsers` |
| ServerProofs.RunPreservesInv | Backend/server.js:222-439 | after any sequence of events from the start, every stored room has at least one participant and `activeUsers` is never negative |
| ServerProofs.HostNeverReassigned | Backend/server.js:256-263 | a room present before and after any event keeps its host; a room that appears was created by the caller's `join-room`, with the caller as host and only participant |
| ServerProofs.OnlyHostChangesLanguage | Backend/server.js:335-341 | a room's language changes only through `change-language` on that room by its stored host |
| ServerProofs.AnyoneOverwritesCode | Backend/server.js:293-297 | a room's code changes only through `code-change` on that room, and any caller's `code-change` on an existing room overwrites it |
| ServerProofs.RoomRemovalCauses | Backend/server.js:343-436 | a room disappears only when its host ends it, or when its sole participant leaves it or disconnects while it is their `currentRoom` |
| ServerProofs.CodeChangeIgnoresTarget | Backend/server.js:293 | the `targetUserId` of `code-change` has no effect on the result |
| Scenarios.TwoInRoom | Backend/server.js:236-281 | after `a` creates `r1` and `b` joins, `r1` lists `a` then `b`, is hosted by `a`, and `b`'s `currentRoom` and topic are `r1` |
| Scenarios.HostLeavesRoomKeepsAuthority | Backend/server.js:343-389 | after the host leaves, the room keeps the departed host; the remaining participant can neither change its language nor end it, while the departed host's open connection can do both |
| Scenarios.SwitchingRoomsLeavesStaleEntry | Backend/server.js:236-266 | switching rooms by `join-room` and then disconnecting deletes the new room but leaves the entry in the old one |
| Scenarios.FailedJoinStrandsEntry | Backend/server.js:236-250 | a failed join moves `currentRoom` and clears the topics, so the following disconnect emits nothing and the old entry stays |
| Client.WritableMatchesTarget | Frontend/src/App.jsx:752 | the editor is writable exactly when the user is host or the edit target is the viewed user; a writable non-host always edits their own id |
| Client.HandleCodeChange | Frontend/src/App.jsx:148-153 | the code is shown and sent once with target = viewed user for a host and own id otherwise; the labels are replaced by the analysis result or kept when it throws, so the starting `O(1)` time label is never produced again |
| Client.SendMessage | Frontend/src/App.jsx:266-276 | a whitespace-only message emits nothing and changes nothing; any other is emitted once, appended as `{message, sender: 'me'}`, and the input is cleared |
| Client.HandleLeaveRoom | Frontend/src/App.jsx:278-292 | `leave-room` is emitted once and the page leaves the room with no messages, the default code and no output; every other part of the page stays as it was |
| Client.HandleEndRoom | Frontend/src/App.jsx:294-299 | `end-room` is emitted exactly when the user is host, followed by the leave; otherwise nothing happens |
| Client.HandleLanguageChange | Frontend/src/App.jsx:500-504 | `change-language` is emitted only by a host; the page itself is unchanged |
| Client.HandleViewUserCode | Frontend/src/App.jsx:506-510 | the viewed user is switched and requested; the editor becomes read-only exactly for a non-host viewing someone else |
| Client.OnVoiceParticipants | Frontend/src/App.jsx:87-89 | the voice map is replaced by the listed pairs: every listed user is present with the name of their last listing, and nobody else is |
| Client.OnVoiceParticipantJoined | Frontend/src/App.jsx:91-98 | sets exactly `userId` to `username`; every other entry keeps its value |
| Client.OnVoiceParticipantLeft | Frontend/src/App.jsx:100-107 | deletes exactly `userId`; every other entry keeps its value |
| Client.VoiceJoinLeaveRestores | Frontend/src/App.jsx:91-106 | a join then a leave of a user not in the map restores the page |
| Complexity.LabelsDistinct | Frontend/src/App.jsx:208-230 | the six displayed labels are pairwise different strings, so the display tells the orders apart |
| Complexity.Indentation | Frontend/src/App.jsx:157-160 | the indentation level is the length of the maximal leading run of spaces and tabs |
| Complexity.ScanLine | Frontend/src/App.jsx:173-206 | a line throws a TypeError exactly when it matches the header test and not the name test; a non-loop line keeps the nesting; a loop line resets it to 1 when it is not indented deeper than the previous line and goes one deeper otherwise, and updates the running maximum; each flag becomes set exactly when it was set or the line fires its test |
| Complexity.LoopLines | Frontend/src/App.jsx:177 | the loop-line count of a prefix is at most its length |
| Complexity.NestingBounds | Frontend/src/App.jsx:177-185 | current nesting ≤ maximum nesting ≤ number of loop lines, and the maximum is positive exactly when a loop line was seen |
| Complexity.ScanFails | Frontend/src/App.jsx:173-188 | the whole scan throws exactly when some line matches the header test and not the name test, and what it throws is a TypeError |
| Complexity.ScanFlags | Frontend/src/App.jsx:187-205 | after the scan each flag is set exactly when some line fired its test; recursion means some `def` header whose name occurs in the code |
| Complexity.ScanLoops | Frontend/src/App.jsx:177-185 | after the scan the current and the maximum nesting are positive exactly when some line is a loop line |
| Complexity.ScanNesting | Frontend/src/App.jsx:177-185 | the maximum nesting reaches two exactly when some loop line indented deeper than its predecessor comes after another loop line |
| Complexity.PlainLinesScanToStart | Frontend/src/App.jsx:173-206 | a scan over lines no test fires on ends with no nesting and no flags |
| Complexity.TimeOrder | Frontend/src/App.jsx:208-220 | the time table: `O(2ⁿ)` exactly with exponential operations; `O(n²)` exactly without them and with nesting two or more; `O(n log n)` exactly with neither and with sorting; `O(n)` exactly with nesting one and none of the above; `O(log n)` exactly with no loops, none of the above and recursion; otherwise a ReferenceError, so never `O(1)` |
| Complexity.SpaceOrder | Frontend/src/App.jsx:222-230 | the space table: `O(n²)` exactly with nesting two or more and data structures; `O(n)` exactly otherwise when there are data structures or a loop; `O(log n)` exactly with neither and with recursion; `O(1)` exactly with none of them; never `O(n log n)` or `O(2ⁿ)` |
| Complexity.TablesMonotone | Frontend/src/App.jsx:208-230 | both tables are priority tables: code with at least the same features never gets a cheaper label |
| Complexity.Analyze | Frontend/src/App.jsx:155-233 | read off the lines of the code: a TypeError exactly when some `def` line has no name; a ReferenceError exactly when otherwise no line shows an exponential operation, a loop, sorting or recursion; else time is the first of exponential, nested loops, sorting, a loop, recursion the lines show, and space the first of nested loops with a data structure, a data structure or loop, recursion, or `O(1)`; an `O(n²)` label needs two loop lines |
| Complexity.PlainCodeThrows | Frontend/src/App.jsx:218 | code on whose lines no test fires makes the analysis throw a ReferenceError |
| Problems.Filter | Frontend/src/components/Problems.jsx:91-97 | the filtered list is no longer than the input |
| Problems.FilterKeepsMatching | Frontend/src/components/Problems.jsx:91-97 | the filter keeps exactly the matching problems, as an order-preserving subsequence; everything when all match, nothing when none do |
| Problems.FilteredProblems | Frontend/src/components/Problems.jsx:91-97 | the panel's list is an order-preserving subsequence of the samples holding exactly the matching ones |
| Problems.AllKeepsEverything | Frontend/src/components/Problems.jsx:91-93 | `'all'` lists every sample problem in the original order |
| Problems.UnknownDifficultyIsEmpty | Frontend/src/components/Problems.jsx:91-97 | any difficulty other than `'all'`, `'1'`, `'2'`, `'3'` lists nothing |
| Problems.FilterFirst | Frontend/src/components/Problems.jsx:92 | the filter decides on the first problem and continues with the rest |
| Problems.FilterEasy | Frontend/src/components/Problems.jsx:94 | `'1'` filters the samples down to problems 1, 5 and 7 |
| Problems.FilterMedium | Frontend/src/components/Problems.jsx:95 | `'2'` filters the samples down to problems 2, 3, 8 and 9 |
| Problems.FilterHard | Frontend/src/components/Problems.jsx:96 | `'3'` filters the samples down to problems 4, 6 and 10 |
| Problems.EasyProblems | Frontend/src/components/Problems.jsx:94 | `'1'` lists exactly the Easy problems |
| Problems.MediumProblems | Frontend/src/components/Problems.jsx:95 | `'2'` lists exactly the Medium problems |
| Problems.HardProblems | Frontend/src/components/Problems.jsx:96 | `'3'` lists exactly the Hard problems |
| Problems.DifficultiesPartition | Frontend/src/components/Problems.jsx:11-82 | every sample is Easy, Medium or Hard, and the three filters list 3, 4 and 3 of the 10 |

## Left out

- The `/compile` endpoint and its temp-file cleanup (Backend/server.js:31-219): subprocesses, the filesystem and timeouts.
- `get-stats` and every `stats-update` broadcast (Backend/server.js:227-234 and the `io.emit` calls). The three counters are kept in the state; announcing them to everyone is not modelled.
- Delivery. Targets stay abstract: which live sockets a `RoomExcept` or `RoomAll` reaches is not computed, and the order of emit and `socket.leave` inside a handler is not modelled.
- The private topic named by a connection's own id. The model's `topics` excludes it, and a room id equal to a connection id is not treated specially.
- Payload shapes. Fields are taken to be strings as sent; a missing `roomId` or `username`, or a non-string `code` (on which `split` would throw), is not modelled.
- Connection ids: `Callable` asks only that a `connection` event carries an id that is not live. That a closed connection's id is never reused is not modelled.
- Logging (`console.log`).
- WebRTC, SimplePeer, `getUserMedia` and audio (Frontend/src/App.jsx:301-498), including the `incoming-call` and `call-accepted` listeners. The server-side relays are modelled.
- The other client listeners: `room-state`, `user-joined`, `user-left`, `code-update`, `receive-message`, `language-changed`, `room-ended`, `view-state-changed` (Frontend/src/App.jsx:44-85, 109-121). Their payload shapes do not match what the server sends, and each side is modelled as written rather than as a protocol.
- `handleJoinRoom`, `handleCompile` and the loading indicator: UI state and a network call.
- `Client.HandleLeaveRoom`: tearing down the peer connection and the microphone stream is not modelled.
- The optional chaining on `socket` in the client: the socket is taken to be connected.
- The regular expressions of `analyzeComplexity`, and the `trim().toLowerCase()` applied before them: they are the given `Detectors`.
- HelpPage, Whiteboard, SocketContext, the `useSocket` hook, TestGenerator, Templates, RoomEntry and the Vite config: static data, rendering, network fetches, `Math.random` room ids and build settings.

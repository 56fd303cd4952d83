# Peer-to-peer remote code execution, modelled in Dafny

The system is an Electron application. Two peers meet in a named room on a
socket.io signalling relay. They negotiate a WebRTC data channel through
that relay. Then each peer can ask the other to run a piece of JavaScript
or Python and send back what it printed. This project models the four
pieces of logic that decide what happens:

- **The relay's room registry** (`signaling_server.dfy`, module `Signaling`).
  - Each handler (`create`, `join`, `signal`, `disconnect`) is a pure step function on `map<RoomId, seq<Handle>>` plus the events it emits.
  - The class `RoomRegistry` holds the registry and an outbox. Its methods change them in place, with the source's own loops, and are proved equal to the step functions.
  - The invariant "no room is empty" is kept by every handler.
- **The code executor** (`code_executor.dfy`, module `Executor`).
  - Dispatch on the language tag.
  - The `console.log` accumulator of the JavaScript path.
  - The Python path, where stdout and stderr chunks, the exit code, a launch failure and the executor's timer settle one promise, once. The callbacks the event loop delivers are a trace, and the promise state after a trace is a fold over it.
  - Neither `executeJavaScript` nor `executePython` has a loop of its own. `RunJavaScript` loops over the vm's `console.log` calls, and `RunPython` over the callbacks the event loop delivers. Each is proved against the corresponding fold.
  - A `Pending` settlement is a snapshot of a trace in which no deciding callback has arrived yet. The timer always fires unless `close` or `error` came first, so a trace that contains the timer callback has always settled (`Executor.TimerFiredSettles`).
- **The connection coordinator** (`p2p_manager.dfy`, module `P2P`). The class `P2PManager` has the fields `roomId`, `isInitiator`, `socket` and `peer`. Each socket and peer callback is a method, and so are `send` and `disconnect`.
- **The renderer's protocol** (`renderer.dfy`, module `Renderer`).
  - The reaction to an inbound message, the request `executeRemotely` sends, and what `executeLocally` shows.
  - The class `Page`, which holds `currentRoomId`, the manager and the executor. `joinRoom`'s blank-id guard lives there.

Supporting modules:

- `wire.dfy`: an `Option` type and the relay's client and server events.
- `js_builtins.dfy`: `Array.prototype.join` and `String.prototype.trim`, with the whitespace set of section 12.2 and 12.3 of ECMA-262.
- `json.dfy`: JSON values. A data-channel frame is either the encoding of a value or text that does not parse. `Json.Stringify`'s encoding parses back to the value it encodes. The module also has the JavaScript semantics the renderer relies on: `Json.Parse`, property access (`Json.Field`), truthiness (`Json.Truthy`) and `String(v)` (`Json.ToText`). `Renderer.TextContent` is what assigning a value to `textContent` leaves. These are language and DOM semantics, not operations of the system.
- `session.dfy`: properties of two peers and the relay together.

External runtimes are parameters:

- The vm is a function from code and time limit to what the script did: the arguments of each `console.log` call, and the error it threw.
- The Python child process is a function from code and time limit to the callbacks it causes.
- The outcome of an execution triggered by an inbound `execute` message is a parameter of the renderer's handler.
- `generateRoomId`'s result is a parameter of `Page.CreateRoom`.

Behaviour of the code worth knowing:

- `create` never checks a room's size, so a room can hold more than two sockets.
- `join` on an unknown id fails. It does not create the room.
- `disconnect` removes only the first copy of a socket. A socket that sent `create` twice stays in the room once.
- The coordinator's connection state is whether a peer object exists, its `connected` flag and whether it was destroyed.
- Every failure is an `Error` object carrying a message text. A vm timeout rejects with the vm's own error, not with "Execution timeout".
- A failure whose message is empty reaches the requester as a falsy `error` field. It is shown as empty normal output, not as an error (`Session.RemoteMatchesLocal`).

## Model

| member | source | states |
|---|---|---|
| Signaling.RoomRegistry.constructor | signaling-server.js:12 | the registry starts with no rooms and nothing emitted |
| Signaling.CreateStep | signaling-server.js:43-48 | `create` adds the room if it is new and appends the creator with no size check; every other room is untouched; exactly `created` is emitted, to the creator only; no room is empty afterwards |
| Signaling.CreateIgnoresCapacity | signaling-server.js:43-47 | three `create`s on one id give a room of three members, in order |
| Signaling.CreateTwice | signaling-server.js:43-47 | two `create`s by one socket list it twice |
| Signaling.RoomRegistry.HandleCreate | signaling-server.js:43-50 | the new registry and outbox are exactly those of `CreateStep`; no room is empty |
| Signaling.Broadcast | signaling-server.js:67-69 | one event to each member, in member order, all the same event |
| Signaling.JoinStep | signaling-server.js:52-69 | an unknown id gives only "Room does not exist" to the caller, a room of two or more gives only "Room is full"; neither changes the registry; otherwise the joiner is appended last, the room has at most 2 members, and `joined` to the joiner is followed by `ready` to every member |
| Signaling.JoinNotifiesEveryMember | signaling-server.js:64-69 | after a successful join, `joined` comes first and the `ready` recipients are, as a multiset, the old members plus the joiner: each member once |
| Signaling.ThirdJoinRefused | signaling-server.js:58-62 | after a create and a join, a third join is refused with "Room is full" and the room stays at two |
| Signaling.RoomRegistry.HandleJoin | signaling-server.js:52-72 | the new registry and outbox are exactly those of `JoinStep`; no room is empty |
| Signaling.Forward | signaling-server.js:79-83 | no forwarded event goes to the sender, and each carries the payload unchanged |
| Signaling.ForwardCounts | signaling-server.js:79-83 | each handle receives the payload as many times as it is listed, except the sender, which receives nothing |
| Signaling.SignalStep | signaling-server.js:74-84 | `signal` never changes the registry; an unknown room gets nothing; a known room gets `Forward` of its members |
| Signaling.SignalReachesOthersOnce | signaling-server.js:78-83 | in a known room the payload reaches each other member once per membership, unchanged, and never the sender |
| Signaling.RoomRegistry.HandleSignal | signaling-server.js:74-84 | the registry is unchanged and the outbox grows by exactly `SignalStep`'s output |
| Signaling.IndexOf | signaling-server.js:32 | `indexOf`: -1 exactly when absent, otherwise the position of the first copy |
| Signaling.Leave | signaling-server.js:32-34 | `splice(indexOf(h), 1)`: unchanged when absent; otherwise exactly the first copy of `h` is cut out and the rest keep their order, so the list is one shorter and holds one copy of `h` fewer |
| Signaling.LeaveRemovesFirstCopy | signaling-server.js:32-34 | a socket listed first and last in `[h, a, h]` leaves `[a, h]`: the first copy goes, the order stays |
| Signaling.DisconnectEffect | signaling-server.js:31-39 | on `disconnect` no room appears; a room without the socket is untouched; a room with it is deleted exactly when the socket was its only member; a surviving room's members are `Leave`'s: the list with the socket's first copy cut out, in order |
| Signaling.DisconnectRooms | signaling-server.js:31-39 | the `disconnect` handler's registry: no new room appears, and every room's members lose exactly one copy of the socket if they held one and nothing else, a deleted room counting as empty |
| Signaling.DisconnectRoomsUnique | signaling-server.js:31-39 | any registry that agrees room by room with the effect of `disconnect` is the registry `disconnect` computes |
| Signaling.DisconnectKeepsRoomsNonEmpty | signaling-server.js:35-37 | `disconnect` never leaves an empty room |
| Signaling.DisconnectStep | signaling-server.js:29-40 | `disconnect` emits nothing |
| Signaling.DisconnectRemovesOneCopy | signaling-server.js:32-34 | a socket listed twice leaves one copy behind when it disconnects |
| Signaling.DrainedRoomIsReclaimed | signaling-server.js:35-37 | after both members of a room disconnect the room is gone, and a later `join` fails with "Room does not exist" |
| Signaling.RoomRegistry.HandleDisconnect | signaling-server.js:29-40 | visiting the rooms one at a time in any order gives exactly `DisconnectStep`'s registry; the outbox is unchanged; no room is empty |
| Executor.RouteOf | code-executor.js:10-17 | the JavaScript path exactly for "javascript", the Python path exactly for "python" |
| Executor.RouteSelectsRuntime | code-executor.js:9-17 | "javascript" consults only the vm, "python" only the child process, and any other tag fails with "Unsupported language: " followed by the tag, whatever either runtime would do |
| Executor.LogLine | code-executor.js:27-29 | one `console.log` appends its arguments joined by a space, then a newline |
| Executor.LogTextConcat | code-executor.js:27-29 | the output of two runs of calls is the first's output followed by the second's |
| Executor.LogTextEndsWithNewline | code-executor.js:28 | the output of one or more calls ends with a newline |
| Executor.JsSettlement | code-executor.js:39-42 | a vm run always settles; it rejects exactly when the script threw, and never resolves with empty text |
| Executor.NoOutputExactlyWhenSilent | code-executor.js:39-42 | a script that completes resolves with the placeholder exactly when it logged nothing; a script that throws rejects with its error, whatever it logged |
| Executor.RunJavaScript | code-executor.js:20-44 | the accumulator loop settles exactly as `JsSettlement` of what the vm did |
| Executor.PyStep | code-executor.js:52-77 | one callback: a settled promise stays settled; a stdout or stderr chunk extends only its buffer and neither settles nor touches the timer; `close` and `error` always clear the timer and leave the promise settled; only an armed timer that fires kills the process |
| Executor.PyBuffersAreChunks | code-executor.js:57-63 | stdout and stderr text are the in-order concatenations of their chunks |
| Executor.SettledStays | code-executor.js:65-77 | once the promise has settled, no later callback changes its outcome |
| Executor.PendingKeepsTimer | code-executor.js:52-55 | the timer is armed exactly while the promise is pending; nothing is killed while pending; a kill always comes with the timeout rejection |
| Executor.CloseDecides | code-executor.js:65-72 | the first `close` decides: exit code 0 resolves with the stdout so far or the placeholder; any other code, or none, rejects with the stderr so far or "Python execution failed" |
| Executor.SpawnErrorDecides | code-executor.js:74-77 | a launch failure rejects with "Failed to start Python: " and the message, and clears the timer for good |
| Executor.TimeoutWins | code-executor.js:52-55 | a timer that fires before any `close` or `error` kills the process and rejects with "Execution timeout"; a later `close` changes nothing |
| Executor.TimerFiredSettles | code-executor.js:52-55 | a run whose callbacks include the timer has always settled |
| Executor.RunPython | code-executor.js:46-79 | the callback loop ends with exactly the promise state and kill flag of `PyRun` |
| Executor.Outcome | code-executor.js:9-17 | `execute`'s `switch`: an unsupported tag rejects with "Unsupported language: " and the tag; only a Python run can stay unsettled, and only while its timer has not fired |
| Executor.CodeExecutor.constructor | code-executor.js:5-7 | the timeout is 10000 |
| Executor.CodeExecutor.Execute | code-executor.js:9-18 | `execute` settles as `Outcome`: both paths run under the executor's own timeout |
| Json.Stringify | p2p-manager.js:107 | what `send` serialises parses back to the same value |
| JsBuiltins.Trim | renderer.js:51 | the trimmed text is no longer than the input, is empty exactly when the input is all whitespace, and otherwise neither starts nor ends with whitespace |
| JsBuiltins.TrimRemovesPadding | renderer.js:51 | whitespace around a text without outer whitespace is exactly what is removed |
| JsBuiltins.TrimIdempotent | renderer.js:51 | trimming twice is trimming once |
| P2P.P2PManager.constructor | p2p-manager.js:6-12 | no peer, no socket, no room, nothing emitted |
| P2P.P2PManager.ConnectToSignalingServer | p2p-manager.js:30-31 | a new open socket replaces the old one and holds the request it will send on `connect` |
| P2P.P2PManager.CreateRoom | p2p-manager.js:14-20 | sets the room id and `isInitiator`, and opens a socket that will send `create` for that id; nothing is sent yet |
| P2P.P2PManager.JoinRoom | p2p-manager.js:22-28 | sets the room id, clears `isInitiator`, and opens a socket that will send `join` for that id; nothing is sent yet |
| P2P.P2PManager.OnSocketConnect | p2p-manager.js:33-36 | only on `connect` is the `create` or `join` request sent, and nothing else changes |
| P2P.PeerFor | p2p-manager.js:42-52 | a responder's peer is created exactly on `joined`, an initiator's exactly on `ready` when this side created the room; other events create none |
| P2P.P2PManager.OnRelayEvent | p2p-manager.js:38-67 | the new peer of `PeerFor` replaces any old one; an inbound signal reaches the peer only when one exists; a relay error is re-emitted with its message; nothing else changes |
| P2P.P2PManager.OnConnectError | p2p-manager.js:60-63 | emits "Failed to connect to signaling server" and changes nothing else |
| P2P.P2PManager.InitPeer | p2p-manager.js:70-74 | the peer is a fresh one with the given role and `trickle` off |
| P2P.Received | p2p-manager.js:85-92 | a frame that parses emits `data` with the parsed value; one that does not emits nothing |
| P2P.P2PManager.OnPeerEvent | p2p-manager.js:76-102 | a local signal goes to the relay tagged with the current room; `connect` and `close` set the peer's flag and emit `connected` or `disconnected`; a bad frame is dropped without closing anything; a peer error is re-emitted |
| P2P.AfterSend | p2p-manager.js:105-109 | over an existing, connected peer exactly one frame is added, and it parses back to the message; otherwise nothing changes |
| P2P.P2PManager.Send | p2p-manager.js:105-109 | the peer afterwards is `AfterSend`'s, and nothing else changes |
| P2P.P2PManager.Disconnect | p2p-manager.js:111-118 | the peer, if any, is destroyed and no longer connected; the socket, if any, is closed |
| Renderer.Page.constructor | renderer.js:20-22 | a new manager for the relay URL and an executor with the default timeout; no room id |
| Renderer.Page.CreateRoom | renderer.js:42-48 | the page and the manager take the generated id, and this side is the initiator |
| Renderer.Page.JoinRoom | renderer.js:50-61 | an id that is blank after trimming changes nothing on the page or the manager; otherwise both take the trimmed id and this side is the responder |
| Renderer.ExecuteRequest | renderer.js:130-134 | the request has exactly the keys type, language and code, with type "execute" and the given language and code |
| Renderer.Page.ExecuteRemotely | renderer.js:123-135 | shows the sending status and passes exactly `ExecuteRequest` to `send` |
| Renderer.ResultReply | renderer.js:83-96 | success replies with type "result" and the result and no error; failure with type "result" and the message and no result; nothing while unsettled |
| Renderer.ResultDisplay | renderer.js:97-102 | an error style exactly when `error` is truthy, with "Error: " and the error; otherwise the `result` as plain text |
| Renderer.PeerDataReaction | renderer.js:79-104 | an `execute` message gets exactly one reply once settled and shows nothing; a `result` message sends nothing and shows one thing; any other message does neither |
| Renderer.Page.HandlePeerData | renderer.js:79-104 | the output pane and the peer change exactly as `PeerDataReaction` says; the room id is unchanged |
| Renderer.LocalDisplays | renderer.js:106-121 | the status line first; then the result on success or "Error: " and the message styled as an error on failure; nothing more while unsettled |
| Renderer.Page.ExecuteLocally | renderer.js:106-121 | the output pane grows by exactly `LocalDisplays` of the executor's outcome |
| Session.HandshakeTrace | signaling-server.js:43-69 | a `create` of a new room followed by another socket's `join` makes the relay emit, in order, `created` to the creator, `joined` to the joiner, then `ready` to the creator and to the joiner |
| Session.HandshakeRoles | p2p-manager.js:42-52 | when one socket creates a room and another joins it, the creator receives created then ready and builds one initiating peer; the joiner receives joined then ready and builds one responding peer |
| Session.LateJoinerBuildsNoPeer | signaling-server.js:58-62 | a third socket joining a full room receives only the refusal and builds no peer |
| Session.RemoteMatchesLocal | renderer.js:97-102 | for a settled execution the requester finally shows what a local run shows, except for an empty failure message, which shows as empty plain output instead of "Error: " |
| Session.RemoteRunMatchesLocal | renderer.js:79-135 | for any language and code, the request `executeRemotely` sends arrives intact; the other side replies with the settlement of running that language and code, with no reply only for an unsettled Python run; the reply arrives intact, and the requester shows what a local run shows, except for an empty failure message |
| Session.RemoteJavaScriptExample | code-executor.js:27-39 | a JavaScript run whose one `console.log` prints 8 resolves with "8\n", and both the requester and a local run show "8\n" |

## Left out

- The socket.io transport, the HTTP server, CORS and the port. A socket is a handle, what the relay sends is an outbox, and what the manager sends is `relayOut`.
- SimplePeer and WebRTC negotiation. A peer is a value with the flags the manager reads and the signals and frames it was given.
- Real evaluation in `vm` and real execution of `python -c`. They are function parameters, and so is the time limit the vm enforces. Wall-clock time is reduced to where the timer callback falls in the callback trace.
- The text of `JSON.stringify` and `JSON.parse`. A frame is an encoded value or unparsable text.
- Json.ToText: numbers are integers only; floating point and its formatting are not modelled.
- Python output is modelled as text chunks; the per-chunk UTF-8 decoding of `data.toString()` is not.
- Executor.JsRun: a script that throws something other than an `Error` (whose `message` is undefined) is not modelled; every rejection carries a message text.
- P2P.P2PManager.OnPeerEvent: only events of the current peer are modelled. A replaced peer's callbacks, and those of a socket replaced by a second `createRoom` or `joinRoom`, still fire in the source. They are left out because the source keeps no reference to those objects.
- Renderer.Page.HandlePeerData: the outcome of running an `execute` message's `language` and `code` is a parameter. `Session.RemoteRunMatchesLocal` ties it to `Executor.Outcome` for the requests `executeRemotely` builds. How `execute` treats non-string fields is not modelled.
- Renderer.Page.HandlePeerData and Renderer.Page.ExecuteLocally: `handlePeerData` and `executeLocally` are `async`, and each is modelled as one atomic step from receipt to reply or display. In the source, other events can run while the execution is pending. The relay's `joined` or `ready` can replace the peer, `disconnect` can destroy it, and a second `execute` can arrive. The reply then goes through whichever peer is current when the execution settles. Those interleavings are not modelled.
- Signaling.SignalStep and Wire.ClientEvent: a `signal` event whose payload is null or missing makes `data.room` throw a TypeError in the relay's listener, and nothing catches it. A `Signal` event always carries a room and a payload, so that uncaught exception is not modelled.
- Renderer.PeerDataReaction: a `null` message makes the source throw inside an async handler, which has no visible effect. The model gives the same result by treating it as a message of no known type.
- Renderer.Page.HandlePeerData: `send` is modelled as never throwing, so the handler's catch path for a failed send is not modelled.
- All DOM work: the log pane (`addLog`), status and button updates, `updateCodeTemplate` and the `init` wiring. A `Display` records only the text and whether it is an error. An error display is written through `innerHTML`, so its text, including a remote peer's `error` field, is parsed as HTML markup. That is not modelled.
- `generateRoomId`, because it relies on `Math.random`. Its result is a parameter of `Page.CreateRoom`.
- `handlePeerConnected`, `handlePeerDisconnected` and `handleError` only touch the DOM.
- Console logging in all four files.
- The iteration order of `rooms.forEach` in `disconnect`. `HandleDisconnect` picks rooms in an arbitrary order, and the result is proved the same for every order.

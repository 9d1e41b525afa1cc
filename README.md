# Remote console (RCON) manager — Dafny model

This project models the sequential logic of the game server's remote-console
service, `RconManager`, and its two websocket message handlers:

- the **console path** `/checkConn` (`RconSocket.OnMessage`) answers the query
  tokens `stats`, `log` and `logfull` with the metrics read-out, the last log
  line and the full server log, and ignores everything else;
- the **chat path** `/rconchat` (`RconChat.OnMessage`) answers `chatfull` with the
  chat log, hands every frame whose first character is `'1'` to the inbound chat
  queue, and ignores other frames;
- the **inbound chat queue**: `ReceiveRconChat` appends a raw submission; the
  per-frame `Update` pops at most one, strips its one-character marker and
  hands `"[Server]: " + body` to the chat relay;
- the **server lifecycle**: `StartServer` creates the one HTTP server (port 3005,
  paths `/checkConn` and `/rconchat`) only when no server reference exists, and
  `OnDisable` stops it without clearing the reference;
- **`AddChatLog`**: appends `timestamp + ":    " + msg + "<br>"` to the chat log
  and broadcasts the same line to every connected chat session.

Layout:

| file | module | contents |
|---|---|---|
| wrappers.dfy | `Wrappers` | `Option` |
| rcon_protocol.dfy | `RconProtocol` | the two handlers' dispatch as pure functions |
| chat_queue.dfy | `ChatQueue` | the queue and drain on values (`Step`, `Run`) and the FIFO / exactly-once lemmas |
| lifecycle.dfy | `Lifecycle` | the server reference as a state machine and lemmas over arbitrary runs |
| chat_broadcast.dfy | `ChatBroadcast` | the chat-log line format and the broadcast fan-out |
| rcon_manager.dfy | `RconService` | class `RconManager`: fields updated in place by methods tied to the modules above, and a scenario client |

Collaborators are fields of the manager: the chat relay's log is the sequence
`relayedEvents`, the console logs are the strings `lastLog`, `serverLog` and
`chatLog`, and everything broadcast to chat sessions is the sequence
`broadcasts`. The timestamp of `AddChatLog` and the metrics read-out of the
console handler are parameters. Whether the listener binds its port is a
parameter of `StartServer`.

Edge cases of the code that the model keeps:

- The marker-only submission `"1"` relays `"[Server]: "` with an empty body.
  The empty string makes `Substring(1, -1)` throw after the entry was
  dequeued, so no event is relayed (`Update` reports `faulted`). The chat
  handler never queues the empty string: reading `e.Data[0]` on an empty frame
  throws first. The model gives that frame its own outcome, `IndexFault`,
  rather than a precondition.
- The server reference is assigned before the listener starts, so a failed
  bind can never be retried: after a failed start, and after `OnDisable`,
  every later `StartServer` only warns.
- Stopping the server closes its sessions. The model empties `chatSessions` in
  `OnDisable`.

## Model

| member | source | states |
|---|---|---|
| RconProtocol.ParseConsoleToken | UnityProject/Assets/Scripts/RCON/RconManager.cs:127-141 | each of `stats`, `log`, `logfull` selects its own query, in both directions; every other frame selects none |
| RconService.RconManager.ConsoleOnMessage | UnityProject/Assets/Scripts/RCON/RconManager.cs:104-141 | at most one frame is sent; none exactly for unknown tokens; `stats` sends the metrics read-out, `log` the last log line (`GetLastLog`, :110-112), `logfull` the full server log (`GetFullLog`, :114-117); a recognised token sends `RconProtocol.ConsoleReply` of its query |
| RconProtocol.ClassifyChat | UnityProject/Assets/Scripts/RCON/RconManager.cs:158-167 | `chatfull` (and only it) asks for the chat log; a frame is submitted, unchanged, exactly when it is non-empty and starts with `'1'`; the empty frame faults; every other frame is ignored |
| RconProtocol.ChatFullIsNotSubmitted | UnityProject/Assets/Scripts/RCON/RconManager.cs:160-166 | `chatfull` starts with `'c'`, so the log request is never also queued |
| RconProtocol.OtherFramesIgnored | UnityProject/Assets/Scripts/RCON/RconManager.cs:129-164 | `"2ignored"` on the chat path and an unknown token on the console path have no effect |
| RconService.RconManager.ChatOnMessage | UnityProject/Assets/Scripts/RCON/RconManager.cs:158-167 | sends the chat log, as read by `GetFullChatLog` (:119-122), only for `chatfull`; appends the frame to the queue only for a submission; faults only on the empty frame |
| ChatQueue.StripMarker | UnityProject/Assets/Scripts/RCON/RconManager.cs:85 | stripping fails exactly on the empty string; otherwise marker plus body gives back the raw submission |
| ChatQueue.MarkerOnlySubmission | UnityProject/Assets/Scripts/RCON/RconManager.cs:85-86 | `"1"` relays the event `"[Server]: "` with an empty body and does not fail |
| ChatQueue.Relay | UnityProject/Assets/Scripts/RCON/RconManager.cs:84-87 | one dequeued entry relays nothing when it is empty, otherwise exactly one system event whose text is `"[Server]: "` followed by the entry without its marker |
| ChatQueue.RelayAll | UnityProject/Assets/Scripts/RCON/RconManager.cs:84-87 | draining non-empty submissions relays one event each, in order, `"[Server]: "` followed by the submission without its marker |
| ChatQueue.ReceiveAppends | UnityProject/Assets/Scripts/RCON/RconManager.cs:98-101 | enqueueing adds exactly its argument at the back; earlier entries and their order, and the relayed events, are unchanged |
| ChatQueue.TickOnEmptyIsNoop | UnityProject/Assets/Scripts/RCON/RconManager.cs:82 | a frame with an empty queue changes nothing and relays nothing |
| ChatQueue.TickRelaysOldest | UnityProject/Assets/Scripts/RCON/RconManager.cs:82-88 | a frame with a non-empty queue removes exactly the oldest entry, keeps the rest in order, and relays exactly one event for it |
| ChatQueue.RunIsFifo | UnityProject/Assets/Scripts/RCON/RconManager.cs:80-101 | under any interleaving of arrivals and frames, what stays queued is a suffix of everything enqueued, and what was relayed is the events of the consumed prefix, each once, in arrival order |
| ChatQueue.DrainedRunRelaysAll | UnityProject/Assets/Scripts/RCON/RconManager.cs:80-101 | a run that ends with an empty queue has relayed the entries queued at its start and then every arrival, in order |
| ChatQueue.EnqueueThenDrain | UnityProject/Assets/Scripts/RCON/RconManager.cs:80-101 | N submissions then N frames leave the queue empty and relay the N bodies in arrival order, each exactly once |
| RconService.RconManager.ReceiveRconChat | UnityProject/Assets/Scripts/RCON/RconManager.cs:98-101 | the queue becomes the old queue plus the argument at the back, as `ChatQueue.Step` on `Receive` (the enqueue half of the queue specification) |
| RconService.RconManager.Update | UnityProject/Assets/Scripts/RCON/RconManager.cs:80-89 | the queue and relayed events change as `ChatQueue.Step` on `Tick` (the drain half of the queue specification); an empty queue is left alone; otherwise the head is removed and one event is relayed unless the head was the empty string |
| Lifecycle.Start | UnityProject/Assets/Scripts/RCON/RconManager.cs:51-67 | an existing reference is kept and only a warning results; otherwise a server on port 3005 with exactly `/checkConn` and `/rconchat` is created, listening exactly when the bind succeeds |
| Lifecycle.Disable | UnityProject/Assets/Scripts/RCON/RconManager.cs:37-42 | the reference stays present exactly when it was; a present server is stopped with its port and paths kept |
| Lifecycle.ExistingServerIsNeverReplaced | UnityProject/Assets/Scripts/RCON/RconManager.cs:37-57 | once a reference exists, no run of enables and disables creates a server or changes port or paths, and a server not listening never listens again |
| Lifecycle.AtMostOneServer | UnityProject/Assets/Scripts/RCON/RconManager.cs:51-67 | from no server, every run creates at most one server; a reference exists exactly when one was created, and it serves the two fixed paths on the fixed port |
| Lifecycle.StoppedServerCannotRestart | UnityProject/Assets/Scripts/RCON/RconManager.cs:37-57 | starting after a disable only warns and leaves the server stopped |
| RconService.RconManager.StartServer | UnityProject/Assets/Scripts/RCON/RconManager.cs:51-78 | the server reference and outcome are those of `Start`; only a warning when a reference existed; the chat host is recorded exactly when a new server bound its port |
| RconService.RconManager.OnDisable | UnityProject/Assets/Scripts/RCON/RconManager.cs:37-42 | the reference becomes `Disable` of the old one; no chat session stays connected |
| RconService.RconManager.constructor | UnityProject/Assets/Scripts/RCON/RconManager.cs:26-30 | a new manager has no server, no chat host and an empty queue |
| ChatBroadcast.ChatLogLine | UnityProject/Assets/Scripts/RCON/RconManager.cs:92 | the chat-log line is the timestamp, then `":    "`, then the message, then `"<br>"`, each at its own position |
| ChatBroadcast.Broadcast | UnityProject/Assets/Scripts/RCON/RconManager.cs:94 | one frame per session present at the call, in session order, all carrying the identical text |
| ChatBroadcast.BroadcastReachesOnlyPresent | UnityProject/Assets/Scripts/RCON/RconManager.cs:94 | a session not connected at the time of the call receives nothing |
| RconService.RconManager.AddChatLog | UnityProject/Assets/Scripts/RCON/RconManager.cs:91-95 | the chat log grows by exactly the formatted line; that same line is broadcast to every chat session; without a chat host the broadcast faults after the log was amended |
| RconService.RconManager.OpenChatSession | UnityProject/Assets/Scripts/RCON/RconManager.cs:94 | a chat client joins the broadcast group only while the server listens |
| RconService.RconManager.CloseChatSession | UnityProject/Assets/Scripts/RCON/RconManager.cs:94 | a disconnected chat client leaves the broadcast group; the others stay |

## Left out

- Concurrency: `ReceiveRconChat` runs on a websocket worker thread over an unsynchronised queue. The model treats enqueue and drain as sequential, interleaved operations (`ChatQueue.Run`).
- The websocket transport (`HttpServer`, `WebSocketBehavior`, `Send`, service-host lookup, the internals of `Sessions.Broadcast`) is a foreign library. `Send` is modelled as the returned frames, and a broadcast as the appended `broadcasts` entries. Connecting and disconnecting sessions are modelled as `OpenChatSession` and `CloseChatSession`.
- Unity plumbing is not modelled: the singleton lookup `Instance`/`FindObjectOfType`, `DontDestroyOnLoad`, `GetComponent`, and the empty `IsHeadlessServer` branch. `OnEnable` and `Init` only call `StartServer`, which is modelled.
- `GetFPSReadOut` reads floating-point frame counters and `GC.GetTotalMemory`. Its string is a parameter of `ConsoleOnMessage`.
- `DateTime.UtcNow` is a timestamp string passed to `AddChatLog`.
- Logger and `Debug.Log` output is not modelled: the port and path listing in `StartServer`, and everything in `RconChat.OnOpen`. The "already listening" warning is the `warned` result.
- `ChatRelay.AddToChatLogServer` and the console base members `LastLog`, `ServerLog`, `ChatLog` and `AmendChatLog` are not part of this model. The relay is an append-only sequence, and `AmendChatLog` is taken to append to the chat log. What else writes `LastLog` and `ServerLog` is outside this component.
- Exceptions are results, not unwinding: `faulted` from `Update`, `AddChatLog` and `ChatOnMessage`, and an unbound server from `StartServer`. How Unity or the websocket library reports them is not modelled.
- C# strings are UTF-16 code units. The model's `char` sequences stand for those units.

/**
 * The remote-console manager: the object that owns the HTTP server, the
 * inbound chat queue and, through its console base, the logs it serves.
 * Its message handlers and main-loop hooks are methods that update its
 * fields in place; each is tied to the value-level specification in
 * ChatQueue, Lifecycle, RconProtocol and ChatBroadcast.
 */
module RconService {
  import opened Wrappers
  import opened RconProtocol
  import opened ChatQueue
  import opened Lifecycle
  import opened ChatBroadcast

  class RconManager {
    /** Raw chat submissions waiting for the main loop, oldest first. */
    var chatQueue: seq<string>
    /** The HTTP server, once one has been created. */
    var httpServer: Option<Server>
    /** Whether the service host of the chat path has been looked up. */
    var chatHost: bool
    /** The sessions connected to the chat path. */
    var chatSessions: seq<SessionId>

    /** Chat events handed to the game's chat relay. */
    var relayedEvents: seq<ChatEvent>
    /** The console logs: most recent line, whole server log, chat log. */
    var lastLog: string
    var serverLog: string
    var chatLog: string
    /** Every frame broadcast to chat sessions, in sending order. */
    var broadcasts: seq<Delivery>

    /**
     * The chat host is only recorded for an existing server, and sessions are
     * only connected while that server is listening.
     */
    ghost predicate Valid()
      reads this
    {
      (chatHost ==> httpServer.Some?) &&
      (chatSessions != [] ==> chatHost && httpServer.Some? && httpServer.value.listening)
    }

    /** The queue and the relayed events, as the value ChatQueue reasons about. */
    function Queue(): Snapshot
      reads this
    {
      Snapshot(chatQueue, relayedEvents)
    }

    function GetLastLog(): string reads this { lastLog }
    function GetFullLog(): string reads this { serverLog }
    function GetFullChatLog(): string reads this { chatLog }

    constructor (lastLog: string, serverLog: string, chatLog: string)
      ensures Valid()
      ensures chatQueue == [] && httpServer == None && !chatHost && chatSessions == []
      ensures relayedEvents == [] && broadcasts == []
      ensures this.lastLog == lastLog && this.serverLog == serverLog && this.chatLog == chatLog
    {
      chatQueue := [];
      httpServer := None;
      chatHost := false;
      chatSessions := [];
      relayedEvents := [];
      broadcasts := [];
      this.lastLog := lastLog;
      this.serverLog := serverLog;
      this.chatLog := chatLog;
    }

    /**
     * Start the server unless one exists. A new server registers the console
     * and chat paths and starts listening; when the listener fails to bind,
     * starting throws after the reference was assigned, so the chat host is
     * not looked up. Returns whether only the "already listening" warning
     * was issued.
     */
    method StartServer(bound: bool) returns (warned: bool)
      requires Valid()
      modifies this`httpServer, this`chatHost
      ensures Valid()
      ensures (httpServer, if warned then AlreadyListening else Created(bound)) == Start(old(httpServer), bound)
      ensures warned <==> old(httpServer).Some?
      ensures chatHost == (old(chatHost) || (!warned && bound))
    {
      if httpServer.Some? {
        warned := true;
        return;
      }
      warned := false;
      httpServer := Some(Server(RconPort, ServicePaths, false));
      if bound {
        httpServer := Some(httpServer.value.(listening := true));
        chatHost := true;
      }
    }

    /** Stop the server if there is one; stopping closes every chat session. */
    method OnDisable()
      requires Valid()
      modifies this`httpServer, this`chatSessions
      ensures Valid()
      ensures httpServer == Disable(old(httpServer))
      ensures chatSessions == []
    {
      if httpServer.Some? {
        httpServer := Some(httpServer.value.(listening := false));
        chatSessions := [];
      }
    }

    /** A client connects to the chat path; refused unless the server listens. */
    method OpenChatSession(id: SessionId)
      requires Valid()
      modifies this`chatSessions
      ensures Valid()
      ensures chatSessions == if chatHost && httpServer.Some? && httpServer.value.listening
                              then old(chatSessions) + [id] else old(chatSessions)
    {
      if chatHost && httpServer.Some? && httpServer.value.listening {
        chatSessions := chatSessions + [id];
      }
    }

    /** A chat client disconnects. */
    method CloseChatSession(id: SessionId)
      requires Valid()
      modifies this`chatSessions
      ensures Valid()
      ensures chatSessions == Without(old(chatSessions), id)
    {
      chatSessions := Without(chatSessions, id);
    }

    /** Append a raw submission to the back of the chat queue. */
    method ReceiveRconChat(data: string)
      requires Valid()
      modifies this`chatQueue
      ensures Valid()
      ensures chatQueue == old(chatQueue) + [data]
      ensures Queue() == Step(old(Queue()), Receive(data))
    {
      chatQueue := chatQueue + [data];
    }

    /**
     * One main-loop frame: pop at most one submission, strip its marker and
     * relay "[Server]: " followed by the body. Stripping the empty string
     * throws after the entry was dequeued; `faulted` reports that.
     */
    method Update() returns (faulted: bool)
      requires Valid()
      modifies this`chatQueue, this`relayedEvents
      ensures Valid()
      ensures Queue() == Step(old(Queue()), Tick)
      ensures old(chatQueue) == [] ==> chatQueue == [] && relayedEvents == old(relayedEvents)
      ensures old(chatQueue) != [] ==> chatQueue == old(chatQueue)[1..]
      ensures faulted <==> old(chatQueue) != [] && old(chatQueue)[0] == ""
      ensures |relayedEvents| == |old(relayedEvents)| + (if old(chatQueue) != [] && !faulted then 1 else 0)
    {
      faulted := false;
      if |chatQueue| > 0 {
        var msg := chatQueue[0];
        chatQueue := chatQueue[1..];
        var body := StripMarker(msg);
        if body.None? {
          faulted := true;
          return;
        }
        relayedEvents := relayedEvents + [ChatEvent(ServerPrefix + body.value, System)];
      }
    }

    /**
     * Append the timestamped line to the chat log and broadcast it to every
     * chat session. Without a chat host the broadcast throws after the log
     * was amended; `faulted` reports that.
     */
    method AddChatLog(timestamp: string, msg: string) returns (faulted: bool)
      requires Valid()
      modifies this`chatLog, this`broadcasts
      ensures Valid()
      ensures chatLog == old(chatLog) + ChatLogLine(timestamp, msg)
      ensures faulted <==> !chatHost
      ensures broadcasts == old(broadcasts) +
                            (if chatHost then Broadcast(chatSessions, ChatLogLine(timestamp, msg)) else [])
    {
      var line := ChatLogLine(timestamp, msg);
      chatLog := chatLog + line;
      if !chatHost {
        faulted := true;
        return;
      }
      faulted := false;
      broadcasts := broadcasts + Broadcast(chatSessions, line);
    }

    /**
     * The console path's handler: the frames it sends back for one query
     * frame. `metrics` is the frame-rate and memory read-out at that moment.
     */
    method ConsoleOnMessage(data: string, metrics: string) returns (sent: seq<string>)
      ensures |sent| <= 1
      ensures sent == [] <==> ParseConsoleToken(data).None?
      ensures data == StatsToken ==> sent == [metrics]
      ensures data == LogToken ==> sent == [GetLastLog()]
      ensures data == LogFullToken ==> sent == [GetFullLog()]
      ensures ParseConsoleToken(data).Some? ==>
                sent == [ConsoleReply(ParseConsoleToken(data).value, metrics, lastLog, serverLog)]
    {
      sent := [];
      if data == StatsToken {
        sent := sent + [metrics];
      }
      if data == LogToken {
        sent := sent + [GetLastLog()];
      }
      if data == LogFullToken {
        sent := sent + [GetFullLog()];
      }
    }

    /**
     * The chat path's handler: answers `chatfull` with the chat log, queues
     * submissions, ignores other frames; the empty frame faults.
     */
    method ChatOnMessage(data: string) returns (sent: seq<string>, faulted: bool)
      requires Valid()
      modifies this`chatQueue
      ensures Valid()
      ensures sent == if ClassifyChat(data) == SendChatLog then [old(chatLog)] else []
      ensures chatQueue == old(chatQueue) + (if ClassifyChat(data).Submit? then [data] else [])
      ensures faulted <==> ClassifyChat(data) == IndexFault
    {
      sent := [];
      faulted := false;
      match ClassifyChat(data)
      case SendChatLog =>
        sent := [GetFullChatLog()];
      case Submit(raw) =>
        ReceiveRconChat(raw);
      case Ignore =>
      case IndexFault =>
        faulted := true;
    }
  }

  /**
   * A short session against the manager: a submission is drained to the
   * chat relay, a frame with another marker is ignored, two chat-log appends
   * are read back with `chatfull`, and a second start after a disable only
   * warns.
   */
  method Scenario()
  {
    var m := new RconManager("", "", "");
    var warned := m.StartServer(true);
    assert !warned && m.httpServer.value.listening && m.chatHost;

    var sent, faulted := m.ChatOnMessage("1hello");
    assert "1hello"[0] == '1';
    assert m.chatQueue == ["1hello"];
    faulted := m.Update();
    assert "1hello"[1..] == "hello";
    assert StripMarker("1hello") == Some("hello");
    assert ServerPrefix + "hello" == "[Server]: hello";
    assert Relay("1hello") == [ChatEvent("[Server]: hello", System)];
    assert m.relayedEvents == [ChatEvent("[Server]: hello", System)];

    sent, faulted := m.ChatOnMessage("2ignored");
    assert "2ignored"[0] == '2';
    assert m.chatQueue == [];
    faulted := m.Update();
    assert m.relayedEvents == [ChatEvent("[Server]: hello", System)];

    faulted := m.AddChatLog("t1", "a");
    faulted := m.AddChatLog("t2", "b");
    assert m.chatLog == "" + ChatLogLine("t1", "a") + ChatLogLine("t2", "b");
    assert "" + ChatLogLine("t1", "a") == ChatLogLine("t1", "a");
    sent, faulted := m.ChatOnMessage("chatfull");
    assert sent == [ChatLogLine("t1", "a") + ChatLogLine("t2", "b")];

    m.OnDisable();
    warned := m.StartServer(true);
    assert warned && !m.httpServer.value.listening;
  }
}

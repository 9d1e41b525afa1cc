/**
 * Appending a line to the chat log and fanning it out to every session
 * connected to the chat path.
 */
module ChatBroadcast {
  /** An opaque handle of one connected chat session. */
  type SessionId = nat

  /** One text frame sent to one session. */
  datatype Delivery = Delivery(session: SessionId, text: string)

  const LineSeparator: string := ":    "
  const LineEnd: string := "<br>"

  /**
   * The chat-log line for `msg`: it starts with the timestamp, the separator
   * follows, then the message, and the line ends with the HTML line break.
   */
  function ChatLogLine(timestamp: string, msg: string): (line: string)
    ensures var m := |timestamp| + |LineSeparator|;
            |line| == m + |msg| + |LineEnd| &&
            line[..|timestamp|] == timestamp &&
            line[|timestamp|..m] == LineSeparator &&
            line[m..m + |msg|] == msg &&
            line[m + |msg|..] == LineEnd
  {
    timestamp + LineSeparator + msg + LineEnd
  }

  /**
   * The frames a broadcast of `text` sends: one per session present at the
   * time of the call, in session order, each carrying the same text.
   */
  function Broadcast(sessions: seq<SessionId>, text: string): (r: seq<Delivery>)
    ensures |r| == |sessions|
    ensures forall i :: 0 <= i < |sessions| ==> r[i] == Delivery(sessions[i], text)
  {
    if sessions == [] then [] else [Delivery(sessions[0], text)] + Broadcast(sessions[1..], text)
  }

  /** A session that was not connected at the time of the call receives nothing. */
  lemma BroadcastReachesOnlyPresent(sessions: seq<SessionId>, text: string, other: SessionId)
    requires other !in sessions
    ensures forall d :: d in Broadcast(sessions, text) ==> d.session != other
  {
  }

  /** The chat sessions with every occurrence of `id` removed; the others keep their multiplicity. */
  function Without(sessions: seq<SessionId>, id: SessionId): (r: seq<SessionId>)
    ensures id !in r
    ensures forall x :: x != id ==> multiset(r)[x] == multiset(sessions)[x]
  {
    if sessions == [] then []
    else if sessions[0] == id then
      assert sessions == [sessions[0]] + sessions[1..];
      Without(sessions[1..], id)
    else
      assert sessions == [sessions[0]] + sessions[1..];
      [sessions[0]] + Without(sessions[1..], id)
  }
}

/**
 * The two message handlers of the remote console, as pure dispatch from the
 * text frame a client sent to what the handler does with it.
 *
 *  - the console path (`/checkConn`, class RconSocket) answers three query
 *    tokens and ignores everything else;
 *  - the chat path (`/rconchat`, class RconChat) answers `chatfull` with the
 *    chat log, hands every frame whose first character is '1' to the inbound
 *    chat queue, and ignores everything else.
 */
module RconProtocol {
  import opened Wrappers

  const StatsToken: string := "stats"
  const LogToken: string := "log"
  const LogFullToken: string := "logfull"
  const ChatFullToken: string := "chatfull"

  /** The protocol marker that tags a chat-path frame as a chat submission. */
  const ChatMarker: char := '1'

  /** The queries the console path understands. */
  datatype ConsoleQuery = Stats | LastLog | FullLog

  /**
   * The query a console frame asks for, if any. The handler compares the frame
   * with each token in turn; since the tokens differ, at most one matches.
   */
  function ParseConsoleToken(data: string): (r: Option<ConsoleQuery>)
    ensures r == Some(Stats) <==> data == StatsToken
    ensures r == Some(LastLog) <==> data == LogToken
    ensures r == Some(FullLog) <==> data == LogFullToken
    ensures r == None <==> data !in {StatsToken, LogToken, LogFullToken}
  {
    if data == StatsToken then Some(Stats)
    else if data == LogToken then Some(LastLog)
    else if data == LogFullToken then Some(FullLog)
    else None
  }

  /**
   * The text sent back for a console query: the metrics read-out, the most
   * recent log line, or the whole server log.
   */
  function ConsoleReply(q: ConsoleQuery, metrics: string, lastLog: string, serverLog: string): string
  {
    match q
    case Stats => metrics
    case LastLog => lastLog
    case FullLog => serverLog
  }

  /** What the chat-path handler does with one frame. */
  datatype ChatAction =
    | SendChatLog            // answer with the full chat log
    | Submit(raw: string)    // hand the frame, marker included, to the chat queue
    | Ignore                 // any other frame: no effect
    | IndexFault             // the empty frame: reading its first character fails

  /**
   * Classification of a chat-path frame. The `chatfull` test comes first; the
   * first character is then read without a length check, so the empty frame
   * faults instead of being ignored.
   */
  function ClassifyChat(data: string): (r: ChatAction)
    ensures r == SendChatLog <==> data == ChatFullToken
    ensures r.Submit? <==> |data| > 0 && data[0] == ChatMarker
    ensures r.Submit? ==> r.raw == data
    ensures r == IndexFault <==> data == ""
    ensures r == Ignore <==> data != "" && data != ChatFullToken && data[0] != ChatMarker
  {
    if data == ChatFullToken then SendChatLog
    else if |data| == 0 then IndexFault
    else if data[0] == ChatMarker then Submit(data)
    else Ignore
  }

  /** `chatfull` starts with 'c', so a log request is never also a chat submission. */
  lemma ChatFullIsNotSubmitted()
    ensures ClassifyChat(ChatFullToken) == SendChatLog
    ensures ChatFullToken[0] != ChatMarker
  {
  }

  /** A frame with another leading character, such as "2ignored", has no effect. */
  lemma OtherFramesIgnored()
    ensures ClassifyChat("2ignored") == Ignore
    ensures ParseConsoleToken("status") == None
  {
  }
}

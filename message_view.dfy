/** How one transcript entry is handed to the message bubble: missing or
    empty fields fall back to placeholders, in the manner of JavaScript's
    `||`. */
module MessageView {
  import opened Messages
  import Transcript

  const FallbackText: string := "Hey, there!"
  const FallbackUserName: string := "Unknown"

  /** A message as the component receives it: any field but the
      timestamp may be absent. */
  datatype MessageData = MessageData(text: Option<string>, timestamp: Timestamp, userName: Option<string>, sent: Option<bool>)

  /** The props of the message bubble. */
  datatype ContentProps = ContentProps(text: string, timestamp: Timestamp, userName: string, sent: bool)

  /** `value || fallback` for a string that may be absent: absent and
      empty both select the fallback. */
  function OrElse(value: Option<string>, fallback: string): (r: string)
    ensures value.Some? && value.value != "" ==> r == value.value
    ensures value.None? || value.value == "" ==> r == fallback
  {
    match value
    case Some(v) => if v != "" then v else fallback
    case None => fallback
  }

  function Render(m: MessageData): (p: ContentProps)
    ensures p.text != "" && p.userName != ""
    ensures m.text.Some? && m.text.value != "" ==> p.text == m.text.value
    ensures m.text.None? || m.text.value == "" ==> p.text == FallbackText
    ensures m.userName.Some? && m.userName.value != "" ==> p.userName == m.userName.value
    ensures m.userName.None? || m.userName.value == "" ==> p.userName == FallbackUserName
    ensures p.sent <==> m.sent == Some(true)
    ensures p.timestamp == m.timestamp
  {
    ContentProps(OrElse(m.text, FallbackText), m.timestamp, OrElse(m.userName, FallbackUserName), m.sent == Some(true))
  }

  /** A transcript entry, every field present. */
  function FromMessage(m: Message): (d: MessageData)
  {
    MessageData(Some(m.text), m.timestamp, Some(m.userName), Some(m.sent))
  }

  /** A received entry is always drawn as a peer's message, and a message
      sent from this client as its own. */
  lemma RenderSide(prev: seq<Message>, peer: Message, text: string, userName: string, now: Timestamp)
    ensures !Render(FromMessage(Transcript.AppendRemote(prev, peer)[|prev|])).sent
    ensures Render(FromMessage(Transcript.AppendLocal(prev, text, userName, now)[|prev|])).sent
  {
  }
}

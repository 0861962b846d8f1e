/** Shared vocabulary of the client: the chat message record, the wire
    payload that wraps it, and the constants the client code fixes. */
module Messages {

  /** A JavaScript value that may be absent (`undefined`). */
  datatype Option<T> = None | Some(value: T)

  /** An instant, as a JavaScript `Date` holds it: milliseconds since the
      epoch. The model never inspects it; it is only copied. */
  datatype Timestamp = Instant(millis: int)

  /** One transcript entry (`IMessage`). `id` is a per-client sequence
      number and `sent` is true only in the author's own transcript. */
  datatype Message = Message(id: int, text: string, userName: string, sent: bool, timestamp: Timestamp)

  /** The object a client emits: `{ message: data }`. */
  datatype Payload = Payload(message: Message)

  /** The single event name the client subscribes to and emits on. */
  const MessageEvent: string := "event:message"

  /** The user name the user context starts with. */
  const DefaultUserName: string := "User"
}

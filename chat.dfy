/** The chat room's send action: the input box's text is sent only when
    its trimmed form is non-empty; the trimmed text is what is sent, and
    the box is cleared afterwards. */
module Chat {
  import opened Messages
  import JsString
  import Transcript
  import Notification
  import SocketContext

  /** What `handleSendMessage` passes to `sendMessage` for a given input,
      or None when it sends nothing. */
  function SendGate(input: string): (r: Option<string>)
    ensures r.None? <==> JsString.IsBlank(input)
    ensures r.Some? ==> r.value == JsString.Trim(input)
    ensures r.Some? ==> r.value != [] && JsString.IsTrimmed(r.value)
  {
    var t := JsString.Trim(input);
    if t != [] then Some(t) else None
  }

  class ChatRoom {
    const provider: SocketContext.SocketProvider
    /** The controlled input box. */
    var inputMessage: string
    /** Every text handed to `sendMessage`, in order. */
    ghost var sentTexts: seq<string>

    /** Nothing blank or padded is ever sent. */
    ghost predicate Valid()
      reads this, provider, provider.manager
    {
      provider.Valid() &&
      forall i :: 0 <= i < |sentTexts| ==> sentTexts[i] != [] && JsString.IsTrimmed(sentTexts[i])
    }

    constructor (provider: SocketContext.SocketProvider)
      requires provider.Valid()
      ensures Valid() && this.provider == provider
      ensures inputMessage == "" && sentTexts == []
    {
      this.provider := provider;
      inputMessage := "";
      sentTexts := [];
    }

    /** The input box's `onChange`. */
    method OnInputChange(text: string)
      modifies this`inputMessage
      ensures inputMessage == text
    {
      inputMessage := text;
    }

    /** `handleSendMessage`, run by the send button and by the Enter key. */
    method HandleSendMessage(now: Timestamp)
      requires Valid()
      modifies this, provider, provider.manager
      ensures Valid() && provider.manager == old(provider.manager)
      ensures SendGate(old(inputMessage)).None? ==>
                inputMessage == old(inputMessage) && sentTexts == old(sentTexts) &&
                unchanged(provider) && (provider.manager != null ==> unchanged(provider.manager))
      ensures SendGate(old(inputMessage)).Some? ==>
                var text := SendGate(old(inputMessage)).value;
                inputMessage == "" && sentTexts == old(sentTexts) + [text] &&
                provider.username == old(provider.username) &&
                provider.messages == Transcript.AppendLocal(old(provider.messages), text, old(provider.username), now) &&
                provider.Monitor() ==
                  Notification.Step(old(provider.Monitor()), old(|provider.messages|), Notification.Append).0
      ensures SendGate(old(inputMessage)).Some? && provider.manager != null ==>
                provider.manager.connected == old(provider.manager.connected) &&
                provider.manager.handlers == old(provider.manager.handlers)
      ensures SendGate(old(inputMessage)).Some? && provider.manager != null && provider.manager.connected ==>
                provider.manager.outbox ==
                  old(provider.manager.outbox) + [(MessageEvent, Payload(provider.messages[|provider.messages| - 1]))]
      ensures SendGate(old(inputMessage)).Some? && provider.manager != null && !provider.manager.connected ==>
                provider.manager.outbox == old(provider.manager.outbox)
    {
      if JsString.Trim(inputMessage) != [] {
        var text := JsString.Trim(inputMessage);
        provider.SendMessage(text, now);
        sentTexts := sentTexts + [text];
        inputMessage := "";
      }
    }
  }
}

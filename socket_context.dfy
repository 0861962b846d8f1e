/** The socket provider: the transcript, the connection handle it opens on
    mount, and the focus and notification state. The event loop is single
    threaded, so each handler below is one atomic step; each one that
    changes the transcript or the focus flag ends with `AfterChange`, the
    notification effect that React runs after the re-render. */
module SocketContext {
  import opened Messages
  import Transcript
  import Notification
  import Connection

  /** The endpoint used when the backend URL is not configured. */
  const LocalBackendUrl: string := "http://localhost:8000"

  /** `process.env.NEXT_PUBLIC_BACKEND_URL ?? "http://localhost:8000"`:
      only an absent setting falls back; an empty one is kept. */
  function BackendUrl(configured: Option<string>): (url: string)
    ensures configured.Some? ==> url == configured.value
    ensures configured.None? ==> url == LocalBackendUrl
  {
    match configured
    case Some(u) => u
    case None => LocalBackendUrl
  }

  class SocketProvider {
    var messages: seq<Message>
    /** The current user name, read from the user context. */
    var username: string
    /** The handle opened on mount; null before it. */
    var manager: Connection.SocketManager?
    var isPageFocused: bool
    var lastMessageCount: nat
    /** `document.title`. */
    var title: string
    /** Alerts raised so far (title flash and notification sound). */
    ghost var alerts: nat

    /** What holds at every point, also inside a handler before its effect. */
    ghost predicate Wired()
      reads this, manager
    {
      |messages| >= 1 && (manager != null ==> manager.Valid())
    }

    /** What holds between events: the effect has re-synced the count. */
    ghost predicate Valid()
      reads this, manager
    {
      Wired() && lastMessageCount == |messages|
    }

    ghost function Monitor(): Notification.Monitor
      reads this
    {
      Notification.Monitor(isPageFocused, lastMessageCount, title, alerts)
    }

    /** The first render: the welcome transcript, focused, no handle yet. */
    constructor (now: Timestamp)
      ensures Valid()
      ensures messages == Transcript.Seed(now)
      ensures username == DefaultUserName && manager == null
      ensures Monitor() == Notification.Initial(1)
    {
      messages := Transcript.Seed(now);
      username := DefaultUserName;
      manager := null;
      isPageFocused := true;
      lastMessageCount := 1;
      title := Notification.PageTitle;
      alerts := 0;
    }

    /** The mount effect: open a handle on the configured endpoint and
        subscribe to the message event. */
    method Mount(configured: Option<string>)
      requires Valid()
      modifies this
      ensures Valid() && fresh(manager)
      ensures manager.url == BackendUrl(configured) && manager.connected
      ensures manager.handlers == {MessageEvent} && manager.outbox == []
      ensures messages == old(messages) && username == old(username)
      ensures Monitor() == old(Monitor())
    {
      var m := new Connection.SocketManager(BackendUrl(configured));
      manager := m;
      m.On(MessageEvent);
    }

    /** The mount effect's cleanup: unsubscribe and tear the handle down.
        The provider keeps its reference to the dead handle. */
    method Unmount()
      requires Valid() && manager != null
      modifies manager
      ensures Valid()
      ensures !manager.connected && manager.handlers == {}
      ensures manager.outbox == old(manager.outbox)
    {
      manager.Off(MessageEvent);
      manager.Disconnect();
    }

    /** The notification effect. */
    method AfterChange()
      requires Wired()
      modifies this`lastMessageCount, this`title, this`alerts
      ensures Valid()
      ensures Monitor() == Notification.Effect(old(Monitor()), |messages|)
    {
      if !isPageFocused && |messages| > lastMessageCount {
        title := Notification.AlertTitle;
        alerts := alerts + 1;
      }
      lastMessageCount := |messages|;
    }

    /** `sendMessage`: append the authored message locally, then emit it if
        a connected handle exists; without one the send is silently dropped
        while the local append stays. */
    method SendMessage(text: string, now: Timestamp)
      requires Valid()
      modifies this, manager
      ensures Valid() && manager == old(manager) && username == old(username)
      ensures messages == Transcript.AppendLocal(old(messages), text, username, now)
      ensures Monitor() == Notification.Step(old(Monitor()), old(|messages|), Notification.Append).0
      ensures manager != null ==>
                manager.connected == old(manager.connected) && manager.handlers == old(manager.handlers)
      ensures manager != null && manager.connected ==>
                manager.outbox == old(manager.outbox) + [(MessageEvent, Payload(messages[|messages| - 1]))]
      ensures manager != null && !manager.connected ==> manager.outbox == old(manager.outbox)
    {
      var message := Transcript.Authored(messages, text, username, now);
      messages := Transcript.AppendLocal(messages, text, username, now);
      if manager != null {
        manager.Emit(MessageEvent, message);
      }
      AfterChange();
    }

    /** `onMessageReceived`: append the peer's message with `sent` false.
        The transport calls it only while the handle is subscribed to the
        message event. */
    method OnMessageReceived(message: Message)
      requires Valid()
      requires manager != null && MessageEvent in manager.handlers
      modifies this`messages, this`lastMessageCount, this`title, this`alerts
      ensures Valid()
      ensures messages == Transcript.AppendRemote(old(messages), message)
      ensures Monitor() == Notification.Step(old(Monitor()), old(|messages|), Notification.Append).0
    {
      messages := Transcript.AppendRemote(messages, message);
      AfterChange();
    }

    /** The window `focus` handler. */
    method Focus()
      requires Valid()
      modifies this`isPageFocused, this`lastMessageCount, this`title, this`alerts
      ensures Valid()
      ensures Monitor() == Notification.Step(old(Monitor()), |messages|, Notification.Focus).0
      ensures isPageFocused && title == Notification.PageTitle && alerts == old(alerts)
    {
      isPageFocused := true;
      title := Notification.PageTitle;
      lastMessageCount := |messages|;
      AfterChange();
    }

    /** The window `blur` handler. */
    method Blur()
      requires Valid()
      modifies this`isPageFocused, this`lastMessageCount, this`title, this`alerts
      ensures Valid()
      ensures Monitor() == Notification.Step(old(Monitor()), |messages|, Notification.Blur).0
      ensures !isPageFocused && title == old(title) && alerts == old(alerts)
    {
      isPageFocused := false;
      AfterChange();
    }
  }
}

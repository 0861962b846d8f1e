# E-Connect client synchronisation layer, in Dafny

E-Connect is a two-sided chat: a relay server re-broadcasts every
`event:message` it receives to the other connected clients, and each web
client keeps one transcript that merges the messages its user sends with
the messages relayed from peers. This project models the client side of
that layer:

- the transcript held by the socket provider: seeded with a welcome
  message, grown only by appends (`Transcript`);
- the connection handle `SocketManager`, whose one nullable socket is the
  `connected` flag, with guarded subscribe/unsubscribe/emit and an
  idempotent teardown; a ghost `outbox` records what was emitted
  (`Connection`);
- the socket provider itself, as a class whose handlers are the atomic
  steps of the single-threaded event loop: mount and unmount of the
  connection, `sendMessage`, `onMessageReceived`, window focus and blur,
  each transcript or focus change followed by `AfterChange`, the
  notification effect (`SocketContext`);
- the focus and notification rules as a state machine over focus flag,
  remembered transcript length, page title and alert count, with lemmas
  about whole runs of events (`Notification`);
- the chat room's send action: send the trimmed input only when it is
  non-empty, then clear the input (`Chat`), on top of ECMAScript's
  `String.prototype.trim` (`JsString`);
- the message bubble's fallbacks for missing or empty fields
  (`MessageView`).

Timestamps are opaque instants that are only copied; the clock is a
parameter of the handlers that read it (`new Date()`). The configured
backend URL is a parameter of `Mount`. The document title is a field and
alerts (title flash plus notification sound) are a ghost counter.

Three behaviours of the code are easy to misread:

- Sending with no handle, or with a torn-down one, is silently dropped
  (`socketManager?.emit` and the null guard in `emit`); the local append
  still happens. No "no active connection" error exists.
- An alert is raised for every append that happens while the page is
  unfocused, not once per absence, because the effect re-syncs the
  remembered length after every run (`Notification.AwayThenBack`: `m`
  messages while away give `m` alerts).
- Message ids are not unique. A locally sent message's id is its 1-based
  position in the sender's own transcript, a count that includes the
  welcome message and every message received so far; a received message
  keeps the sender's id (`Transcript.IdsCanCollide`). So the first message
  a client sends before it has received any carries id 2
  (`Transcript.FirstSendSeenByPeer`), and after k receptions it carries
  id k + 2.

## Model

| member | source | states |
|---|---|---|
| Transcript.Seed | apps/web/contexts/SocketContext.tsx:78-86 | a fresh transcript has exactly one entry: id 1, text "Hey, welcome!", user "Server", not sent, stamped with the mount time |
| Transcript.Authored | apps/web/contexts/SocketContext.tsx:159-165 | the message `sendMessage` builds has id = transcript length + 1, the typed text, the current user name, `sent` true and the send time |
| Transcript.AppendLocal | apps/web/contexts/SocketContext.tsx:167 | a local send grows the transcript by exactly one entry, appended last, earlier entries unchanged; the new entry's id equals its 1-based position |
| Transcript.Normalize | apps/web/contexts/SocketContext.tsx:141-145 | a received message is stored with `sent` false and every other field as sent |
| Transcript.AppendRemote | apps/web/contexts/SocketContext.tsx:138-147 | a reception grows the transcript by exactly one entry with `sent` false and id, text, user name and timestamp copied from the payload; earlier entries unchanged |
| Transcript.ReceiveIgnoresWireSent | apps/web/contexts/SocketContext.tsx:143 | the stored entry is the same whatever `sent` value arrived over the wire |
| Transcript.ApplyAll | apps/web/contexts/SocketContext.tsx:139-146 | a run of updates lengthens the transcript by exactly one entry per update |
| Transcript.ApplyAllAppendOnly | apps/web/contexts/SocketContext.tsx:139-146 | any mix of local sends and receptions keeps every earlier entry in place and in order |
| Transcript.ApplyAllOrder | apps/web/contexts/SocketContext.tsx:167 | the k-th update of a run places its entry at position (old length + k): transcript order is dispatch order |
| Transcript.IdsCanCollide | apps/web/contexts/SocketContext.tsx:142 | a received message whose sender id is 1 sits beside the welcome message with the same id: ids are not unique |
| Transcript.FirstSendSeenByPeer | apps/web/contexts/SocketContext.tsx:159-168 | the first message client A sends appears in client B's transcript right after B's welcome message, with A's fields, id 2 and `sent` false |
| Notification.Initial | apps/web/contexts/SocketContext.tsx:91-92 | the monitor starts focused, with the remembered length equal to the seed length, the page title and no alert |
| Notification.Effect | apps/web/contexts/SocketContext.tsx:123-130 | the effect raises one alert and sets the alert title exactly when the page is unfocused and the transcript is longer than remembered, and always remembers the current length |
| Notification.OnFocus | apps/web/contexts/SocketContext.tsx:103-107 | focus sets the focus flag, restores the title "E-Connect" and remembers the current length, raising nothing |
| Notification.OnBlur | apps/web/contexts/SocketContext.tsx:109-111 | blur clears the focus flag and changes nothing else |
| Notification.ReplayAlerts | apps/web/contexts/SocketContext.tsx:101-130 | over any run of appends, focuses and blurs that starts in sync, one alert is raised per append made while unfocused and none otherwise, and the remembered length ends equal to the transcript length |
| Notification.FocusedRunIsSilent | apps/web/contexts/SocketContext.tsx:124 | a run with no blur, started focused and in sync, raises no alert however many messages it appends |
| Notification.BlurIsSilent | apps/web/contexts/SocketContext.tsx:109-111 | a blur with no new message raises no alert and keeps the title |
| Notification.AwayThenBack | apps/web/contexts/SocketContext.tsx:103-130 | blur, m appends, focus: m alerts, remembered length = old length + m, focused again with the normal title |
| Connection.SocketManager.constructor | apps/web/contexts/SocketContext.tsx:45-47 | a new handle is connected to the given URL, with no listener and nothing emitted |
| Connection.SocketManager.On | apps/web/contexts/SocketContext.tsx:49-53 | subscribing adds the event while connected and is a no-op without a socket |
| Connection.SocketManager.Off | apps/web/contexts/SocketContext.tsx:55-59 | unsubscribing removes the event while connected and is a no-op without a socket |
| Connection.SocketManager.Emit | apps/web/contexts/SocketContext.tsx:61-65 | emitting while connected sends exactly `(event, { message: data })`; without a socket nothing is sent and nothing fails |
| Connection.SocketManager.Disconnect | apps/web/contexts/SocketContext.tsx:67-72 | teardown leaves no socket and no listener and emits nothing; on a torn-down handle it changes nothing |
| Connection.TeardownIsFinal | apps/web/contexts/SocketContext.tsx:49-72 | after a teardown, a second teardown, a subscribe, an unsubscribe and an emit leave the handle unconnected and emit nothing |
| SocketContext.BackendUrl | apps/web/contexts/SocketContext.tsx:133-135 | the configured URL is used when present (even empty); only an absent one falls back to http://localhost:8000 |
| SocketContext.SocketProvider.constructor | apps/web/contexts/SocketContext.tsx:78-92 | a new provider holds the welcome transcript, the default user name "User", no handle, and the initial monitor |
| SocketContext.SocketProvider.Mount | apps/web/contexts/SocketContext.tsx:132-149 | mounting opens a fresh connected handle on the backend URL subscribed to exactly `event:message`, leaving transcript and monitor unchanged |
| SocketContext.SocketProvider.Unmount | apps/web/contexts/SocketContext.tsx:151-154 | unmounting leaves the handle unconnected with no listener, without emitting |
| SocketContext.SocketProvider.AfterChange | apps/web/contexts/SocketContext.tsx:123-130 | the effect updates title, alert count and remembered length exactly as `Notification.Effect` and restores the between-events invariant |
| SocketContext.SocketProvider.SendMessage | apps/web/contexts/SocketContext.tsx:157-171 | the transcript becomes the local append; a connected handle emits exactly one `event:message` carrying the appended message, a missing or torn-down handle emits nothing; then the effect runs |
| SocketContext.SocketProvider.OnMessageReceived | apps/web/contexts/SocketContext.tsx:138-149 | called only while the handle is subscribed to `event:message`; the transcript becomes the remote append, then the effect runs |
| SocketContext.SocketProvider.Focus | apps/web/contexts/SocketContext.tsx:103-107 | the focus handler followed by the effect: focused, normal title, count re-synced, no alert |
| SocketContext.SocketProvider.Blur | apps/web/contexts/SocketContext.tsx:109-111 | the blur handler followed by the effect: unfocused, title and alert count unchanged |
| JsString.Trim | apps/web/components/Chat/ChatRoom.tsx:25 | the trimmed text has no white space at either end, and is empty exactly when the input is all white space |
| JsString.TrimIsSlice | apps/web/components/Chat/ChatRoom.tsx:25 | the trimmed text is a slice of the input with only white space before and after it |
| JsString.TrimPadding | apps/web/components/Chat/ChatRoom.tsx:25 | a non-empty trimmed string padded with white space on both sides trims back to itself |
| JsString.TrimIdempotent | apps/web/components/Chat/ChatRoom.tsx:25-26 | trimming twice equals trimming once |
| Chat.SendGate | apps/web/components/Chat/ChatRoom.tsx:25-26 | nothing is sent exactly when the input is empty or all white space; otherwise the trimmed input is sent, and it is non-empty with no white space at either end |
| Chat.ChatRoom.constructor | apps/web/components/Chat/ChatRoom.tsx:17 | the input box starts empty and nothing has been sent |
| Chat.ChatRoom.OnInputChange | apps/web/components/Chat/ChatRoom.tsx:60 | typing replaces the input box's text |
| Chat.ChatRoom.HandleSendMessage | apps/web/components/Chat/ChatRoom.tsx:24-29 | a blank input changes nothing (input kept, provider untouched); otherwise `sendMessage` is called once with the trimmed input: the transcript gets that local append, a connected handle emits exactly that message (a missing or torn-down one emits nothing), the monitor takes one append step, the user name is kept, and the input becomes empty; every text ever sent stays non-empty and trimmed |
| MessageView.OrElse | apps/web/components/Chat/Message.tsx:11-13 | an absent or empty string selects the fallback; a non-empty one passes through |
| MessageView.Render | apps/web/components/Chat/Message.tsx:10-15 | empty or missing text shows "Hey, there!", empty or missing user name shows "Unknown", others pass through; shown as sent iff `sent` is true (missing means false); the timestamp is passed through |
| MessageView.RenderSide | apps/web/components/Chat/Message.tsx:14 | a received entry is always drawn as a peer's message, a locally sent one as the user's own |

## Left out

- The relay server (apps/backend/src/services/socket.ts): its broadcast to every other connection happens inside socket.io; the model covers one client, and a received message is whatever message the relay forwards.
- Express bootstrap, ports and cross-origin configuration: I/O and configuration only.
- Transport behaviour: socket.io's connection, reconnection and delivery. A listener in `handlers` is an event name; callback identity is not modelled, since the provider registers one callback per event.
- Dispatch of an inbound event to the subscribed callback belongs to the transport; `OnMessageReceived` is the callback itself, and its precondition is the transport's guarantee that the handle is subscribed.
- Serialization of the timestamp over the wire and its re-parse with `new Date(...)`: the instant is copied unchanged.
- `document.title` writes, audio playback and scrolling are not modelled as effects; the title is a field and alerts a ghost counter.
- React batching, render timing and stale closures: each handler is one atomic step, and `sendMessage` sees the current transcript. Because the remembered length equals the transcript length between events, running the effect after every focus or blur matches React skipping it when the focus flag did not change.
- The user context: the user name is its default "User"; changing it through the context's setter is not modelled.
- The older chat page (apps/web/app/page.tsx), avatar colours, read-more layout, routing and metadata: presentation, random colours and DOM measurement.

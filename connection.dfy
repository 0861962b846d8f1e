/** The client's connection handle (`SocketManager`): one nullable socket,
    modelled by the `connected` flag, with guarded subscribe, unsubscribe
    and emit, and a teardown that drops the socket. */
module Connection {
  import opened Messages

  class SocketManager {
    /** The endpoint the socket was opened on. */
    const url: string
    /** True while the socket field is non-null. */
    var connected: bool
    /** The event names with a listener on the socket. */
    var handlers: set<string>
    /** Every `(event, payload)` pair handed to the socket, in order. */
    ghost var outbox: seq<(string, Payload)>

    /** A dropped socket takes its listeners with it. */
    ghost predicate Valid()
      reads this
    {
      !connected ==> handlers == {}
    }

    /** Opens one socket to `url` (websocket transport only). */
    constructor (url: string)
      ensures Valid()
      ensures this.url == url && connected && handlers == {} && outbox == []
    {
      this.url := url;
      connected := true;
      handlers := {};
      outbox := [];
    }

    /** Subscribes to `event`; does nothing without a socket. */
    method On(event: string)
      requires Valid()
      modifies this
      ensures Valid() && connected == old(connected) && outbox == old(outbox)
      ensures handlers == if connected then old(handlers) + {event} else old(handlers)
    {
      if connected {
        handlers := handlers + {event};
      }
    }

    /** Unsubscribes from `event`; does nothing without a socket. */
    method Off(event: string)
      requires Valid()
      modifies this
      ensures Valid() && connected == old(connected) && outbox == old(outbox)
      ensures handlers == if connected then old(handlers) - {event} else old(handlers)
    {
      if connected {
        handlers := handlers - {event};
      }
    }

    /** Emits `{ message: data }` on `event`; without a socket nothing is
        emitted and nothing is raised. */
    method Emit(event: string, data: Message)
      requires Valid()
      modifies this
      ensures Valid() && connected == old(connected) && handlers == old(handlers)
      ensures outbox == if connected then old(outbox) + [(event, Payload(data))] else old(outbox)
    {
      if connected {
        outbox := outbox + [(event, Payload(data))];
      }
    }

    /** Closes the socket and drops it; a second call finds no socket and
        does nothing. */
    method Disconnect()
      requires Valid()
      modifies this
      ensures Valid() && !connected && handlers == {} && outbox == old(outbox)
    {
      if connected {
        connected := false;
        handlers := {};
      }
    }
  }

  /** After a teardown the handle is inert: a second teardown, a subscribe,
      an unsubscribe and an emit change nothing and emit nothing. */
  method TeardownIsFinal(manager: SocketManager, event: string, data: Message)
    requires manager.Valid()
    modifies manager
    ensures manager.Valid() && !manager.connected && manager.handlers == {}
    ensures manager.outbox == old(manager.outbox)
  {
    manager.Disconnect();
    manager.Disconnect();
    manager.On(event);
    manager.Emit(event, data);
    manager.Off(event);
  }
}

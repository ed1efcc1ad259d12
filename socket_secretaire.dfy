/** The dispatcher client's socket service: a registry of application
    listeners that outlives the socket, so that a new socket created by
    `connect` is given every registered listener again. */
module SecretaireSocket {
  import opened Base
  import opened SocketClient

  class SocketService {
    var socket: ClientSocket?
    /** `this.listeners`: event name to the callbacks registered under it. */
    var listeners: map<string, seq<Callback>>

    /** The live socket carries exactly the registered callbacks. */
    ghost predicate Synced()
      reads this, socket
    {
      socket != null ==> SameHandlers(socket.handlers, listeners)
    }

    constructor ()
      ensures socket == null && listeners == map[]
      ensures Synced()
    {
      socket := null;
      listeners := map[];
    }

    /** `connect(token)`: nothing when the socket is connected; otherwise a
        new socket, given every registered callback under its event. */
    method Connect()
      modifies this
      ensures listeners == old(listeners)
      ensures old(socket) != null && old(socket.connected) ==> socket == old(socket)
      ensures !(old(socket) != null && old(socket.connected)) ==>
                socket != null && fresh(socket) && !socket.connected && socket.sent == []
                && SameHandlers(socket.handlers, listeners)
      ensures old(Synced()) ==> Synced()
    {
      if socket != null && socket.connected {
        return;
      }
      var s := new ClientSocket();
      AttachRegistry(s, listeners);
      socket := s;
    }

    /** `disconnect()`: the socket is closed and dropped; the registry is kept
        for the next `connect`. */
    method Disconnect()
      modifies this, socket
      ensures socket == null && listeners == old(listeners)
      ensures old(socket) != null ==> !old(socket).connected && old(socket).handlers == old(socket.handlers)
    {
      if socket != null {
        socket.Disconnect();
        socket := null;
      }
    }

    /** `on(event, callback)`: always recorded; attached when a socket exists. */
    method On(event: string, cb: Callback)
      modifies this, socket
      ensures socket == old(socket)
      ensures listeners == old(listeners)[event := Handlers(old(listeners), event) + [cb]]
      ensures socket != null ==> socket.handlers == old(socket.handlers)[event := Handlers(old(socket.handlers), event) + [cb]]
                                 && socket.connected == old(socket.connected) && socket.sent == old(socket.sent)
      ensures old(Synced()) ==> Synced()
    {
      var added := Handlers(listeners, event) + [cb];
      listeners := listeners[event := added];
      if socket != null {
        socket.On(event, cb);
        if old(Synced()) {
          SameHandlersUpdate(old(socket.handlers), old(listeners), event, added);
        }
      }
    }

    /** `off(event, callback)` as written: every copy leaves the registry, but
        the socket drops only its first matching handler. */
    method Off(event: string, cb: Callback)
      modifies this, socket
      ensures socket == old(socket)
      ensures listeners == RegistryOff(old(listeners), event, cb)
      ensures socket != null ==> socket.handlers == SocketOff(old(socket.handlers), event, cb)
                                 && socket.connected == old(socket.connected) && socket.sent == old(socket.sent)
    {
      if event in listeners {
        listeners := listeners[event := RemoveAll(listeners[event], cb)];
      }
      if socket != null {
        socket.Off(event, cb);
      }
    }

    /** `off` as intended: the socket drops every matching handler too, so
        the callback no longer fires and the socket stays in step with the
        registry. */
    method OffAll(event: string, cb: Callback)
      modifies this, socket
      ensures socket == old(socket)
      ensures listeners == RegistryOff(old(listeners), event, cb)
      ensures socket != null ==> cb !in Handlers(socket.handlers, event)
                                 && socket.connected == old(socket.connected) && socket.sent == old(socket.sent)
      ensures old(Synced()) ==> Synced()
    {
      if event in listeners {
        listeners := listeners[event := RemoveAll(listeners[event], cb)];
      }
      if socket != null {
        ghost var h0 := socket.handlers;
        while cb in Handlers(socket.handlers, event)
          invariant socket == old(socket) && socket != null
          invariant listeners == RegistryOff(old(listeners), event, cb)
          invariant socket.connected == old(socket.connected) && socket.sent == old(socket.sent)
          invariant RemoveAll(Handlers(socket.handlers, event), cb) == RemoveAll(Handlers(h0, event), cb)
          invariant forall e :: e != event ==> Handlers(socket.handlers, e) == Handlers(h0, e)
          decreases |Handlers(socket.handlers, event)|
        {
          RemoveAllAfterRemoveFirst(Handlers(socket.handlers, event), cb);
          socket.Off(event, cb);
        }
        RemoveAllAbsent(Handlers(socket.handlers, event), cb);
      }
    }

    /** `emit(event, data)`: handed to the socket when one exists, even while
        it is still connecting; dropped otherwise. */
    method Emit(event: string, data: Value)
      modifies socket
      ensures socket != null ==> socket.sent == old(socket.sent) + [(event, data)]
                                 && socket.handlers == old(socket.handlers) && socket.connected == old(socket.connected)
    {
      if socket != null {
        socket.Emit(event, data);
      }
    }
  }

  /** The loop of `connect` that restores the listeners: every callback of
      the registry is attached to the new socket under its event. */
  method AttachRegistry(s: ClientSocket, registry: map<string, seq<Callback>>)
    requires s.handlers == map[]
    modifies s
    ensures SameHandlers(s.handlers, registry)
    ensures s.connected == old(s.connected) && s.sent == old(s.sent)
  {
    var pending := registry.Keys;
    while pending != {}
      invariant pending <= registry.Keys
      invariant s.connected == old(s.connected) && s.sent == old(s.sent)
      invariant forall e :: Handlers(s.handlers, e) == (if e in registry && e !in pending then registry[e] else [])
      decreases pending
    {
      var e :| e in pending;
      AttachAll(s, e, registry[e]);
      pending := pending - {e};
    }
  }

  /** `callbacks.forEach(cb => socket.on(event, cb))`. */
  method AttachAll(s: ClientSocket, event: string, cbs: seq<Callback>)
    modifies s
    ensures Handlers(s.handlers, event) == Handlers(old(s.handlers), event) + cbs
    ensures forall e :: e != event ==> Handlers(s.handlers, e) == Handlers(old(s.handlers), e)
    ensures s.connected == old(s.connected) && s.sent == old(s.sent)
  {
    var j := 0;
    while j < |cbs|
      invariant 0 <= j <= |cbs|
      invariant Handlers(s.handlers, event) == Handlers(old(s.handlers), event) + cbs[..j]
      invariant forall e :: e != event ==> Handlers(s.handlers, e) == Handlers(old(s.handlers), e)
      invariant s.connected == old(s.connected) && s.sent == old(s.sent)
    {
      s.On(event, cbs[j]);
      assert cbs[..j + 1] == cbs[..j] + [cbs[j]];
      j := j + 1;
    }
    assert cbs[..j] == cbs;
  }

  lemma SameHandlersUpdate(a: map<string, seq<Callback>>, b: map<string, seq<Callback>>, event: string, cbs: seq<Callback>)
    requires SameHandlers(a, b)
    ensures SameHandlers(a[event := cbs], b[event := cbs])
  {
    var a', b' := a[event := cbs], b[event := cbs];
    forall e ensures Handlers(a', e) == Handlers(b', e) {
      assert Handlers(a, e) == Handlers(b, e);
    }
  }

  /** The registry after `off`: `filter(cb => cb !== callback)`. */
  function RegistryOff(listeners: map<string, seq<Callback>>, event: string, cb: Callback): (r: map<string, seq<Callback>>)
    ensures r.Keys == listeners.Keys
    ensures cb !in Handlers(r, event)
    ensures forall e :: e != event ==> Handlers(r, e) == Handlers(listeners, e)
  {
    if event in listeners then listeners[event := RemoveAll(listeners[event], cb)] else listeners
  }

  /** After `off`, a socket that was in step with the registry stays in step
      exactly when the callback was registered at most once under the event:
      registered twice, it is gone from the registry but still fires. */
  lemma OffKeepsSyncIff(handlers: map<string, seq<Callback>>, listeners: map<string, seq<Callback>>,
                        event: string, cb: Callback)
    requires SameHandlers(handlers, listeners)
    ensures SameHandlers(SocketOff(handlers, event, cb), RegistryOff(listeners, event, cb))
            <==> multiset(Handlers(listeners, event))[cb] <= 1
  {
    var s := Handlers(listeners, event);
    assert Handlers(handlers, event) == s;
    RemoveFirstIsRemoveAll(s, cb);
    if event in listeners {
      assert Handlers(RegistryOff(listeners, event, cb), event) == RemoveAll(s, cb);
    } else {
      assert Handlers(RegistryOff(listeners, event, cb), event) == [] == RemoveAll(s, cb);
    }
  }

  lemma {:induction false} RemoveAllAfterRemoveFirst(s: seq<Callback>, cb: Callback)
    ensures RemoveAll(RemoveFirst(s, cb), cb) == RemoveAll(s, cb)
  {
    if s != [] && s[0] != cb {
      RemoveAllAfterRemoveFirst(s[1..], cb);
      assert RemoveFirst(s, cb) == [s[0]] + RemoveFirst(s[1..], cb);
      assert ([s[0]] + RemoveFirst(s[1..], cb))[1..] == RemoveFirst(s[1..], cb);
    }
  }
}

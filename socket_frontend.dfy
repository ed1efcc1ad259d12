/** The socket service of the `frontend` client: listeners are attached only
    to a live socket and recorded for cleanup; `disconnect` detaches every
    recorded listener and forgets them. */
module FrontendSocket {
  import opened Base
  import opened SocketClient

  const NouvelleEvent := "mission:nouvelle"
  const ConfirmeeEvent := "mission:confirmee"
  const AssigneeEvent := "mission:assignee"
  const ModifieeEvent := "mission:modifiee"

  class SocketService {
    var socket: ClientSocket?
    /** `this.listeners`: the callbacks attached through `on`, per event. */
    var listeners: map<string, seq<Callback>>

    /** The live socket carries exactly the recorded callbacks. */
    ghost predicate Synced()
      reads this, socket
    {
      socket != null ==> SameHandlers(socket.handlers, listeners)
    }

    constructor ()
      ensures socket == null && listeners == map[]
      ensures Synced()
    {
      socket := null;
      listeners := map[];
    }

    /** `isConnected()`. */
    predicate IsConnected()
      reads this, socket
    {
      socket != null && socket.connected
    }

    /** `connect()` with the stored token: nothing without a token or while
        connected; otherwise a new socket with no application listeners
        (the record of earlier ones is kept as it was). */
    method Connect(token: Option<string>)
      modifies this
      ensures listeners == old(listeners)
      ensures (token.None? || token.value == "" || old(IsConnected())) ==> socket == old(socket)
      ensures !(token.None? || token.value == "" || old(IsConnected())) ==>
                socket != null && fresh(socket) && socket.handlers == map[] && !socket.connected && socket.sent == []
    {
      if token.None? || token.value == "" {
        return;
      }
      if socket != null && socket.connected {
        return;
      }
      socket := new ClientSocket();
    }

    /** `on(event, callback)`: nothing without a socket; otherwise attached
        and recorded. */
    method On(event: string, cb: Callback)
      modifies this, socket
      ensures socket == old(socket)
      ensures socket == null ==> listeners == old(listeners)
      ensures socket != null ==>
                listeners == old(listeners)[event := Handlers(old(listeners), event) + [cb]]
                && socket.handlers == old(socket.handlers)[event := Handlers(old(socket.handlers), event) + [cb]]
                && socket.connected == old(socket.connected) && socket.sent == old(socket.sent)
      ensures old(Synced()) ==> Synced()
    {
      if socket == null {
        return;
      }
      socket.On(event, cb);
      var added := Handlers(listeners, event) + [cb];
      listeners := listeners[event := added];
      if old(Synced()) {
        assert Handlers(old(socket.handlers), event) == Handlers(old(listeners), event);
        SameHandlersUpdate(old(socket.handlers), old(listeners), event, added);
      }
    }

    /** `off(event, callback)`: nothing without a socket; otherwise the first
        matching handler leaves both the socket and the record. */
    method Off(event: string, cb: Callback)
      modifies this, socket
      ensures socket == old(socket)
      ensures socket == null ==> listeners == old(listeners)
      ensures socket != null ==>
                listeners == SocketOff(old(listeners), event, cb)
                && socket.handlers == SocketOff(old(socket.handlers), event, cb)
                && socket.connected == old(socket.connected) && socket.sent == old(socket.sent)
      ensures old(Synced()) ==> Synced()
    {
      if socket == null {
        return;
      }
      if Synced() {
        SocketOffKeepsSame(socket.handlers, listeners, event, cb);
      }
      socket.Off(event, cb);
      listeners := SocketOff(listeners, event, cb);
    }

    /** `emit(event, data)`: sent only over a connected socket. */
    method Emit(event: string, data: Value)
      modifies socket
      ensures old(IsConnected()) ==> socket.sent == old(socket.sent) + [(event, data)]
                                     && socket.handlers == old(socket.handlers) && socket.connected
      ensures !old(IsConnected()) && socket != null ==> socket.sent == old(socket.sent)
    {
      if socket == null || !socket.connected {
        return;
      }
      socket.Emit(event, data);
    }

    /** `disconnect()`: every recorded callback is taken off the socket once,
        the record is cleared, and the socket closed and dropped. */
    method Disconnect()
      modifies this, socket
      ensures socket == null
      ensures old(socket) == null ==> listeners == old(listeners)
      ensures old(socket) != null ==> listeners == map[] && !old(socket).connected
      ensures old(socket) != null ==>
                forall e :: Handlers(old(socket).handlers, e) == Detached(old(socket.handlers), old(listeners), e)
    {
      if socket != null {
        DetachRegistry(socket, listeners);
        listeners := map[];
        socket.Disconnect();
        socket := null;
      }
    }

    /** `setupMissionListeners(...)`: each supplied callback is registered
        under its mission event. */
    method SetupMissionListeners(onNewMission: Option<Callback>, onConfirmedMission: Option<Callback>,
                                 onAssignedMission: Option<Callback>, onModifiedMission: Option<Callback>)
      modifies this, socket
      ensures socket == old(socket)
      ensures socket == null ==> listeners == old(listeners)
      ensures socket != null ==>
                listeners == MissionRegistry(old(listeners), onNewMission, onConfirmedMission, onAssignedMission, onModifiedMission)
      ensures old(Synced()) ==> Synced()
    {
      OnIfPresent(NouvelleEvent, onNewMission);
      OnIfPresent(ConfirmeeEvent, onConfirmedMission);
      OnIfPresent(AssigneeEvent, onAssignedMission);
      OnIfPresent(ModifieeEvent, onModifiedMission);
    }

    /** `if (cb) this.on(event, cb)`. */
    method OnIfPresent(event: string, cb: Option<Callback>)
      modifies this, socket
      ensures socket == old(socket)
      ensures socket == null ==> listeners == old(listeners)
      ensures socket != null ==> listeners == Register(old(listeners), event, cb)
      ensures old(Synced()) ==> Synced()
    {
      if cb.Some? {
        On(event, cb.value);
      }
    }
  }

  /** The record after `if (cb) this.on(event, cb)` on a live socket. */
  function Register(listeners: map<string, seq<Callback>>, event: string, cb: Option<Callback>): (r: map<string, seq<Callback>>)
    ensures Handlers(r, event) == Handlers(listeners, event) + (if cb.Some? then [cb.value] else [])
    ensures forall e :: e != event ==> Handlers(r, e) == Handlers(listeners, e)
  {
    if cb.Some? then listeners[event := Handlers(listeners, event) + [cb.value]] else listeners
  }

  /** The record after `setupMissionListeners` on a live socket. */
  function MissionRegistry(listeners: map<string, seq<Callback>>, onNewMission: Option<Callback>,
                           onConfirmedMission: Option<Callback>, onAssignedMission: Option<Callback>,
                           onModifiedMission: Option<Callback>): map<string, seq<Callback>>
  {
    Register(Register(Register(Register(listeners, NouvelleEvent, onNewMission),
      ConfirmeeEvent, onConfirmedMission), AssigneeEvent, onAssignedMission), ModifieeEvent, onModifiedMission)
  }

  /** `setupMissionListeners` adds, under each event, exactly the supplied
      callback for it, and leaves every other event alone. */
  lemma MissionListenersAdded(listeners: map<string, seq<Callback>>, onNewMission: Option<Callback>,
                              onConfirmedMission: Option<Callback>, onAssignedMission: Option<Callback>,
                              onModifiedMission: Option<Callback>, e: string)
    ensures Handlers(MissionRegistry(listeners, onNewMission, onConfirmedMission, onAssignedMission, onModifiedMission), e)
            == Handlers(listeners, e) + MissionCallbacks(e, onNewMission, onConfirmedMission, onAssignedMission, onModifiedMission)
  {
    var r1 := Register(listeners, NouvelleEvent, onNewMission);
    var r2 := Register(r1, ConfirmeeEvent, onConfirmedMission);
    var r3 := Register(r2, AssigneeEvent, onAssignedMission);
    var r4 := Register(r3, ModifieeEvent, onModifiedMission);
    if e == NouvelleEvent {
      assert Handlers(r4, e) == Handlers(r1, e);
    } else if e == ConfirmeeEvent {
      assert Handlers(r4, e) == Handlers(r2, e) && Handlers(r1, e) == Handlers(listeners, e);
    } else if e == AssigneeEvent {
      assert Handlers(r4, e) == Handlers(r3, e) && Handlers(r2, e) == Handlers(listeners, e);
    } else if e == ModifieeEvent {
      assert Handlers(r3, e) == Handlers(listeners, e);
    } else {
      assert Handlers(r4, e) == Handlers(listeners, e);
    }
  }

  /** What `setupMissionListeners` adds under an event. */
  function MissionCallbacks(e: string, onNewMission: Option<Callback>, onConfirmedMission: Option<Callback>,
                            onAssignedMission: Option<Callback>, onModifiedMission: Option<Callback>): (r: seq<Callback>)
    ensures |r| <= 1
    ensures r != [] <==> (e == NouvelleEvent && onNewMission.Some?) || (e == ConfirmeeEvent && onConfirmedMission.Some?)
                         || (e == AssigneeEvent && onAssignedMission.Some?) || (e == ModifieeEvent && onModifiedMission.Some?)
  {
    if e == NouvelleEvent then (if onNewMission.Some? then [onNewMission.value] else [])
    else if e == ConfirmeeEvent then (if onConfirmedMission.Some? then [onConfirmedMission.value] else [])
    else if e == AssigneeEvent then (if onAssignedMission.Some? then [onAssignedMission.value] else [])
    else if e == ModifieeEvent then (if onModifiedMission.Some? then [onModifiedMission.value] else [])
    else []
  }

  /** Removing, one first occurrence at a time, each callback of `cbs`. */
  function RemoveEach(h: seq<Callback>, cbs: seq<Callback>): (r: seq<Callback>)
    ensures |r| <= |h|
  {
    if cbs == [] then h
    else RemoveFirst(RemoveEach(h, cbs[..|cbs| - 1]), cbs[|cbs| - 1])
  }

  /** A socket's handlers under an event once the recorded callbacks are
      taken off it. */
  function Detached(handlers: map<string, seq<Callback>>, registry: map<string, seq<Callback>>, e: string): seq<Callback>
  {
    if e in registry then RemoveEach(Handlers(handlers, e), registry[e]) else Handlers(handlers, e)
  }

  /** The loop of `disconnect`. */
  method DetachRegistry(s: ClientSocket, registry: map<string, seq<Callback>>)
    modifies s
    ensures forall e :: Handlers(s.handlers, e) == Detached(old(s.handlers), registry, e)
    ensures s.connected == old(s.connected) && s.sent == old(s.sent)
  {
    var pending := registry.Keys;
    while pending != {}
      invariant pending <= registry.Keys
      invariant s.connected == old(s.connected) && s.sent == old(s.sent)
      invariant forall e :: Handlers(s.handlers, e) ==
                  (if e in registry && e !in pending then Detached(old(s.handlers), registry, e) else Handlers(old(s.handlers), e))
      decreases pending
    {
      var e :| e in pending;
      DetachAll(s, e, registry[e]);
      pending := pending - {e};
    }
  }

  /** `callbacks.forEach(cb => socket.off(event, cb))`. */
  method DetachAll(s: ClientSocket, event: string, cbs: seq<Callback>)
    modifies s
    ensures Handlers(s.handlers, event) == RemoveEach(Handlers(old(s.handlers), event), cbs)
    ensures forall e :: e != event ==> Handlers(s.handlers, e) == Handlers(old(s.handlers), e)
    ensures s.connected == old(s.connected) && s.sent == old(s.sent)
  {
    var j := 0;
    while j < |cbs|
      invariant 0 <= j <= |cbs|
      invariant Handlers(s.handlers, event) == RemoveEach(Handlers(old(s.handlers), event), cbs[..j])
      invariant forall e :: e != event ==> Handlers(s.handlers, e) == Handlers(old(s.handlers), e)
      invariant s.connected == old(s.connected) && s.sent == old(s.sent)
    {
      s.Off(event, cbs[j]);
      assert cbs[..j + 1][..j] == cbs[..j];
      j := j + 1;
    }
    assert cbs[..j] == cbs;
  }

  /** Taking a list's own elements off it, in order, leaves its suffix. */
  lemma {:induction false} RemoveEachPrefix(s: seq<Callback>, j: nat)
    requires j <= |s|
    ensures RemoveEach(s, s[..j]) == s[j..]
  {
    var p := s[..j];
    if j == 0 {
      assert p == [];
    } else {
      assert p[..j - 1] == s[..j - 1];
      RemoveEachPrefix(s, j - 1);
      var t := s[j - 1..];
      assert RemoveEach(s, p) == RemoveFirst(t, s[j - 1]);
      assert t[0] == s[j - 1] && t[1..] == s[j..];
    }
  }

  /** When the socket is in step with the record, `disconnect` leaves it with
      no application handler at all. */
  lemma DisconnectDetachesEverything(handlers: map<string, seq<Callback>>, registry: map<string, seq<Callback>>)
    requires SameHandlers(handlers, registry)
    ensures forall e :: Detached(handlers, registry, e) == []
  {
    forall e ensures Detached(handlers, registry, e) == [] {
      assert Handlers(handlers, e) == Handlers(registry, e);
      if e in registry {
        RemoveEachPrefix(registry[e], |registry[e]|);
        assert registry[e][..|registry[e]|] == registry[e];
      }
    }
  }

  lemma SameHandlersUpdate(a: map<string, seq<Callback>>, b: map<string, seq<Callback>>, event: string, cbs: seq<Callback>)
    requires SameHandlers(a, b)
    ensures SameHandlers(a[event := cbs], b[event := cbs])
  {
    var a', b' := a[event := cbs], b[event := cbs];
    forall e ensures Handlers(a', e) == Handlers(b', e) {
      assert Handlers(a, e) == Handlers(b, e);
    }
  }
}

/** The parts of a socket.io client socket the two socket services rely on:
    its per-event handler lists (`on` appends, duplicates allowed; `off`
    removes the first matching handler only), its `connected` flag, and the
    messages handed to `emit`. */
module SocketClient {
  import opened Base

  /** The identity of a JavaScript callback function. */
  type Callback = nat

  /** `list[event] || []`. */
  function Handlers(m: map<string, seq<Callback>>, event: string): seq<Callback>
  {
    if event in m then m[event] else []
  }

  /** Two registries hold the same callbacks, in the same order, under every
      event. */
  ghost predicate SameHandlers(a: map<string, seq<Callback>>, b: map<string, seq<Callback>>)
  {
    forall e :: Handlers(a, e) == Handlers(b, e)
  }

  /** `splice(indexOf(cb), 1)`: the first occurrence goes, the rest stays. */
  function RemoveFirst(s: seq<Callback>, cb: Callback): (r: seq<Callback>)
    ensures cb !in s ==> r == s
    ensures cb in s ==> |r| == |s| - 1 && multiset(r) == multiset(s) - multiset{cb}
  {
    if s == [] then []
    else
      assert s == [s[0]] + s[1..];
      if s[0] == cb then s[1..] else [s[0]] + RemoveFirst(s[1..], cb)
  }

  /** `filter(c => c !== cb)`: every occurrence goes. */
  function RemoveAll(s: seq<Callback>, cb: Callback): (r: seq<Callback>)
    ensures forall x :: x in r <==> x in s && x != cb
    ensures |r| <= |s|
  {
    if s == [] then []
    else if s[0] == cb then RemoveAll(s[1..], cb)
    else [s[0]] + RemoveAll(s[1..], cb)
  }

  /** The two removals agree exactly when the callback occurs at most once. */
  lemma {:induction false} RemoveFirstIsRemoveAll(s: seq<Callback>, cb: Callback)
    ensures RemoveFirst(s, cb) == RemoveAll(s, cb) <==> multiset(s)[cb] <= 1
  {
    if s != [] {
      var t := s[1..];
      assert s == [s[0]] + t;
      if s[0] == cb {
        if cb in t {
          assert cb in RemoveFirst(s, cb) && cb !in RemoveAll(s, cb);
        } else {
          RemoveAllAbsent(t, cb);
        }
      } else {
        RemoveFirstIsRemoveAll(t, cb);
        assert RemoveFirst(s, cb) == [s[0]] + RemoveFirst(t, cb);
        assert RemoveAll(s, cb) == [s[0]] + RemoveAll(t, cb);
        if RemoveFirst(s, cb) == RemoveAll(s, cb) {
          assert RemoveFirst(t, cb) == RemoveFirst(s, cb)[1..];
        }
      }
    }
  }

  lemma {:induction false} RemoveAllAbsent(s: seq<Callback>, cb: Callback)
    requires cb !in s
    ensures RemoveAll(s, cb) == s
  {
    if s != [] {
      RemoveAllAbsent(s[1..], cb);
    }
  }

  /** The handler lists after `off(event, cb)`: the first match only. */
  function SocketOff(handlers: map<string, seq<Callback>>, event: string, cb: Callback): (r: map<string, seq<Callback>>)
    ensures Handlers(r, event) == RemoveFirst(Handlers(handlers, event), cb)
    ensures forall e :: e != event ==> Handlers(r, e) == Handlers(handlers, e)
  {
    if event in handlers then handlers[event := RemoveFirst(handlers[event], cb)] else handlers
  }

  /** Removing the same first match on both sides keeps them alike. */
  lemma SocketOffKeepsSame(a: map<string, seq<Callback>>, b: map<string, seq<Callback>>, event: string, cb: Callback)
    requires SameHandlers(a, b)
    ensures SameHandlers(SocketOff(a, event, cb), SocketOff(b, event, cb))
  {
    var a', b' := SocketOff(a, event, cb), SocketOff(b, event, cb);
    forall e ensures Handlers(a', e) == Handlers(b', e) {
      assert Handlers(a, e) == Handlers(b, e);
    }
  }

  class ClientSocket {
    var handlers: map<string, seq<Callback>>
    var connected: bool
    var sent: seq<(string, Value)>

    /** `io(url, options)`: a new socket, not yet connected, with no
        application handlers. */
    constructor ()
      ensures handlers == map[] && !connected && sent == []
    {
      handlers := map[];
      connected := false;
      sent := [];
    }

    /** `socket.on(event, cb)`. */
    method On(event: string, cb: Callback)
      modifies this
      ensures handlers == old(handlers)[event := Handlers(old(handlers), event) + [cb]]
      ensures connected == old(connected) && sent == old(sent)
    {
      handlers := handlers[event := Handlers(handlers, event) + [cb]];
    }

    /** `socket.off(event, cb)`: the first matching handler is removed. */
    method Off(event: string, cb: Callback)
      modifies this
      ensures handlers == SocketOff(old(handlers), event, cb)
      ensures connected == old(connected) && sent == old(sent)
    {
      if event in handlers {
        handlers := handlers[event := RemoveFirst(handlers[event], cb)];
      }
    }

    /** `socket.emit(event, data)`: queued, and sent once connected. */
    method Emit(event: string, data: Value)
      modifies this
      ensures sent == old(sent) + [(event, data)]
      ensures handlers == old(handlers) && connected == old(connected)
    {
      sent := sent + [(event, data)];
    }

    /** The transport's `connect` event. */
    method Established()
      modifies this
      ensures connected && handlers == old(handlers) && sent == old(sent)
    {
      connected := true;
    }

    /** `socket.disconnect()`. */
    method Disconnect()
      modifies this
      ensures !connected && handlers == old(handlers) && sent == old(sent)
    {
      connected := false;
    }
  }
}

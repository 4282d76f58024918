/** The owner front end's socket hook
    (services/owner-frontend/src/components/useSocket.js): a registry from
    event name to the set of callbacks subscribed to it, the dispatcher
    that calls them, and the order-room requests. Callbacks are compared
    by identity, so each is modelled by an id; a JavaScript `Set` keeps
    insertion order, so each set is a sequence without repetitions. */
module SocketListeners {
  import opened Wrappers

  type CallbackId = nat

  /** Every registered event has at least one callback and none twice. */
  ghost predicate WellFormed(m: map<string, seq<CallbackId>>)
  {
    forall e :: e in m ==> m[e] != [] && NoRepeats(m[e])
  }

  predicate NoRepeats(s: seq<CallbackId>)
  {
    forall i, j :: 0 <= i < j < |s| ==> s[i] != s[j]
  }

  /** The callbacks of an event, none when it has no entry. */
  function ListenersOf(m: map<string, seq<CallbackId>>, event: string): seq<CallbackId>
  {
    if event in m then m[event] else []
  }

  /** `on(event, cb)`: the event's set is created when missing and `cb` is
      added unless it is already there. */
  function Registered(m: map<string, seq<CallbackId>>, event: string, cb: CallbackId): (r: map<string, seq<CallbackId>>)
    ensures event in r && cb in r[event]
    ensures forall e :: e != event ==> (e in r <==> e in m) && (e in m ==> r[e] == m[e])
    ensures forall x :: x in r[event] <==> x == cb || x in ListenersOf(m, event)
  {
    if event in m then
      if cb in m[event] then m else m[event := m[event] + [cb]]
    else m[event := [cb]]
  }

  /** `s.delete(cb)` on a set held as a sequence. */
  function Without(s: seq<CallbackId>, cb: CallbackId): (r: seq<CallbackId>)
    ensures forall x :: x in r <==> x in s && x != cb
    ensures |r| <= |s|
  {
    if s == [] then []
    else Without(s[..|s| - 1], cb) + (if s[|s| - 1] == cb then [] else [s[|s| - 1]])
  }

  /** The unsubscribe function `on` returns: `cb` is removed and an event
      left without callbacks loses its entry; an event with no entry is
      left alone. */
  function Unregistered(m: map<string, seq<CallbackId>>, event: string, cb: CallbackId): (r: map<string, seq<CallbackId>>)
    ensures event in r ==> cb !in r[event] && r[event] != []
    ensures forall e :: e != event ==> (e in r <==> e in m) && (e in m ==> r[e] == m[e])
    ensures event !in m ==> r == m
    // the event keeps its other callbacks, in order
    ensures event in m ==> (event in r <==> Without(m[event], cb) != []) &&
                           (event in r ==> r[event] == Without(m[event], cb))
  {
    if event !in m then m
    else
      var s := Without(m[event], cb);
      if s == [] then m - {event} else m[event := s]
  }

  lemma {:induction false} WithoutKeepsNoRepeats(s: seq<CallbackId>, cb: CallbackId)
    requires NoRepeats(s)
    ensures NoRepeats(Without(s, cb))
  {
    if s != [] {
      var init, last := s[..|s| - 1], s[|s| - 1];
      WithoutKeepsNoRepeats(init, cb);
      assert last !in init by {
        forall i | 0 <= i < |init| ensures init[i] != last {
          assert init[i] == s[i];
        }
      }
      var w := Without(init, cb);
      if last != cb {
        var r := w + [last];
        forall i, j | 0 <= i < j < |r|
          ensures r[i] != r[j]
        {
          if j == |r| - 1 {
            assert r[i] in w;
          }
        }
      }
    }
  }

  lemma {:induction false} WithoutAbsent(s: seq<CallbackId>, cb: CallbackId)
    requires cb !in s
    ensures Without(s, cb) == s
  {
    if s != [] {
      WithoutAbsent(s[..|s| - 1], cb);
    }
  }

  /** Registering and unsubscribing keep every set non-empty and free of
      repetitions. */
  lemma RegisteredWellFormed(m: map<string, seq<CallbackId>>, event: string, cb: CallbackId)
    requires WellFormed(m)
    ensures WellFormed(Registered(m, event, cb))
  {
    if event in m && cb !in m[event] {
      var s := m[event] + [cb];
      forall i, j | 0 <= i < j < |s|
        ensures s[i] != s[j]
      {
        if j == |s| - 1 {
          assert s[i] == m[event][i];
        }
      }
    }
  }

  lemma UnregisteredWellFormed(m: map<string, seq<CallbackId>>, event: string, cb: CallbackId)
    requires WellFormed(m)
    ensures WellFormed(Unregistered(m, event, cb))
  {
    if event in m {
      WithoutKeepsNoRepeats(m[event], cb);
    }
  }

  /** Registering the same callback twice keeps one entry. */
  lemma RegisterTwice(m: map<string, seq<CallbackId>>, event: string, cb: CallbackId)
    ensures Registered(Registered(m, event, cb), event, cb) == Registered(m, event, cb)
  {
  }

  /** Unsubscribing a callback that was just registered for the first time
      restores the registry exactly. */
  lemma UnsubscribeUndoesOn(m: map<string, seq<CallbackId>>, event: string, cb: CallbackId)
    requires WellFormed(m)
    requires cb !in ListenersOf(m, event)
    ensures Unregistered(Registered(m, event, cb), event, cb) == m
  {
    if event in m {
      var s := m[event];
      WithoutAbsent(s, cb);
      assert (s + [cb])[..|s + [cb]| - 1] == s;
      assert Without(s + [cb], cb) == s;
    } else {
      assert Without([cb], cb) == [] by {
        assert [cb][..0] == [];
      }
      assert m[event := [cb]] - {event} == m;
    }
  }

  /** A second call of the same unsubscribe function changes nothing. */
  lemma UnsubscribeTwice(m: map<string, seq<CallbackId>>, event: string, cb: CallbackId)
    ensures Unregistered(Unregistered(m, event, cb), event, cb) == Unregistered(m, event, cb)
  {
    var r := Unregistered(m, event, cb);
    if event in r {
      WithoutAbsent(r[event], cb);
    }
  }

  /** One callback invocation with the event's payload. */
  datatype Call = Call(callback: CallbackId, payload: string)

  function CallsOf(cbs: seq<CallbackId>, payload: string): (r: seq<Call>)
    ensures |r| == |cbs|
    ensures forall k :: 0 <= k < |cbs| ==> r[k] == Call(cbs[k], payload)
  {
    seq(|cbs|, k requires 0 <= k < |cbs| => Call(cbs[k], payload))
  }

  /** The callbacks among `cbs` that throw, in call order. */
  function Throwing(cbs: seq<CallbackId>, throws: set<CallbackId>): (r: seq<CallbackId>)
    ensures forall x :: x in r <==> x in cbs && x in throws
  {
    if cbs == [] then []
    else Throwing(cbs[..|cbs| - 1], throws) + (if cbs[|cbs| - 1] in throws then [cbs[|cbs| - 1]] else [])
  }

  /** `listenersRef.current`. */
  class ListenerRegistry {
    var listeners: map<string, seq<CallbackId>>

    ghost predicate Valid()
      reads this
    {
      WellFormed(listeners)
    }

    constructor ()
      ensures Valid() && listeners == map[]
    {
      listeners := map[];
    }

    /** `on(eventName, cb)`. */
    method On(event: string, cb: CallbackId)
      requires Valid()
      modifies this
      ensures Valid()
      ensures listeners == Registered(old(listeners), event, cb)
    {
      RegisteredWellFormed(listeners, event, cb);
      // `if (!listeners.has(eventName)) listeners.set(eventName, new Set())`, then `add(cb)`
      if event !in listeners {
        listeners := listeners[event := [cb]];
      } else if cb !in listeners[event] {
        listeners := listeners[event := listeners[event] + [cb]];
      }
    }

    /** The function `on` returns. */
    method Unsubscribe(event: string, cb: CallbackId)
      requires Valid()
      modifies this
      ensures Valid()
      ensures listeners == Unregistered(old(listeners), event, cb)
    {
      if event !in listeners {
        return;
      }
      var s := Without(listeners[event], cb);
      if |s| == 0 {
        listeners := listeners - {event};
      } else {
        listeners := listeners[event := s];
      }
      UnregisteredWellFormed(old(listeners), event, cb);
    }

    /** The `onAny` dispatcher: every callback of the event is called with
        the payload, in registration order; `throws` names the callbacks
        that throw, whose errors are logged without stopping the others. */
    method Dispatch(event: string, payload: string, throws: set<CallbackId>)
      returns (calls: seq<Call>, failed: seq<CallbackId>)
      ensures calls == CallsOf(ListenersOf(listeners, event), payload)
      ensures failed == Throwing(ListenersOf(listeners, event), throws)
      ensures event !in listeners ==> calls == [] && failed == []
    {
      calls, failed := [], [];
      if event !in listeners || |listeners[event]| == 0 {
        return;
      }
      var cbs := listeners[event];
      for i := 0 to |cbs|
        invariant calls == CallsOf(cbs[..i], payload)
        invariant failed == Throwing(cbs[..i], throws)
      {
        assert cbs[..i + 1][..i] == cbs[..i];
        calls := calls + [Call(cbs[i], payload)];
        if cbs[i] in throws {
          failed := failed + [cbs[i]];
        }
      }
      assert cbs[..|cbs|] == cbs;
    }
  }

  // ---------------------------------------------------------------- rooms and url

  /** A message the hook emits to the server. */
  datatype Emit = Emit(event: string, orderId: string)

  /** `joinOrder` and `leaveOrder`: nothing without a socket. */
  function RoomRequest(hasSocket: bool, join: bool, orderId: string): (r: Option<Emit>)
    ensures r.Some? <==> hasSocket
    ensures r.Some? ==> r.value.orderId == orderId && (r.value.event == "joinOrder" <==> join)
  {
    if !hasSocket then None
    else Some(Emit(if join then "joinOrder" else "leaveOrder", orderId))
  }

  const DefaultBackend := "https://whatsapp-saas-backend-f9ot.onrender.com"

  /** The socket's backend: the `url` option, else the build-time
      `VITE_API_BASE`, else `window.__API_BASE`, else the fixed default;
      an empty string is a missing value. */
  function BackendUrl(url: string, viteApiBase: string, windowApiBase: string): (r: string)
    ensures r != ""
    ensures url != "" ==> r == url
    ensures url == "" && viteApiBase != "" ==> r == viteApiBase
    ensures url == "" && viteApiBase == "" && windowApiBase != "" ==> r == windowApiBase
    ensures url == "" && viteApiBase == "" && windowApiBase == "" ==> r == DefaultBackend
  {
    if url != "" then url
    else if viteApiBase != "" then viteApiBase
    else if windowApiBase != "" then windowApiBase
    else DefaultBackend
  }
}

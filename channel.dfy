/**
 * The reconnecting real-time channel of `useWebSocket`: one transport at a
 * time, the `isConnected`/`isAuthenticated` flags, a counter of consecutive
 * reconnect attempts, the reconnect timers, and a registry from event names
 * to the handlers subscribed to them.
 *
 * The event loop drives it: each callback the browser would run (transport
 * open, inbound message, transport close, timer fire) and each call a caller
 * makes (connect, disconnect, send, subscribe, unsubscribe, a session change)
 * is one method of `RealtimeChannel`. JSON parsing is replaced by an already
 * parsed `Inbound` value, the transport by its ready state plus the log of
 * envelopes written to it, and the clock by a timestamp parameter.
 */
module Channel {
  import opened Base
  import opened Json

  /** The close code `disconnect()` passes to the transport, and the one a clean close reports. */
  const NormalClosure: int := 1000
  /**
   * The code a close event reports when no closing handshake completed; in
   * particular when `close()` is called on a socket that is still connecting
   * (section 7.1.5 of RFC 6455).
   */
  const AbnormalClosure: int := 1006

  const DefaultReconnectDelay: nat := 3000
  const DefaultMaxReconnectAttempts: nat := 5

  /** A subscribed callback, identified as the JavaScript `Set` identifies it: by reference. */
  type HandlerId = nat
  type TimerId = nat

  /** The wire message `{type, data, timestamp}`; `kind` is its `type`. An absent field is `None`. */
  datatype Envelope = Envelope(kind: string, data: Option<Json>, timestamp: Option<int>)

  /** What `JSON.parse` made of an inbound frame. */
  datatype Inbound =
    | Parsed(envelope: Envelope)
      /** Valid JSON without a string `type`: no handler is registered under it. */
    | Untyped
      /** Not JSON, or JSON `null`: the parse (or the `type` read) throws and is caught. */
    | Unparseable

  /** `readyState` of the transport the channel holds. */
  datatype ReadyState = Connecting | Open | Closing

  /** One invocation of a handler with a message's `data`. */
  datatype Delivery = Delivery(handler: HandlerId, data: Option<Json>)

  /** The `auth` envelope the channel writes on its own: `{type: 'auth', data: {token}}`. */
  function AuthEnvelope(token: string, now: int): Envelope {
    Envelope("auth", Some(Obj(map["token" := Str(token)])), Some(now))
  }

  /** `session?.accessToken` is truthy: a token is present and is not the empty string. */
  predicate HasToken(token: Option<string>) {
    token.Some? && token.value != ""
  }

  /** The options a caller passes to the hook; a key it leaves out is `None`. */
  datatype WebSocketOptions = WebSocketOptions(
    autoConnect: Option<bool>, reconnectDelay: Option<nat>, maxReconnectAttempts: Option<nat>)

  /** `useWebSocket()` called with no options. */
  const NoOptions: WebSocketOptions := WebSocketOptions(None, None, None)

  /** The options in force once the defaults are filled in. */
  datatype Settings = Settings(autoConnect: bool, reconnectDelay: nat, maxReconnectAttempts: nat)

  /**
   * `{...DEFAULT_OPTIONS, ...options}`: every key the caller gives wins, and
   * every key it leaves out takes its default (connect on mount, 3000 ms, 5).
   */
  function MergeOptions(options: WebSocketOptions): (r: Settings)
    ensures options.autoConnect.Some? ==> r.autoConnect == options.autoConnect.value
    ensures options.autoConnect.None? ==> r.autoConnect
    ensures options.reconnectDelay.Some? ==> r.reconnectDelay == options.reconnectDelay.value
    ensures options.reconnectDelay.None? ==> r.reconnectDelay == DefaultReconnectDelay
    ensures options.maxReconnectAttempts.Some? ==> r.maxReconnectAttempts == options.maxReconnectAttempts.value
    ensures options.maxReconnectAttempts.None? ==> r.maxReconnectAttempts == DefaultMaxReconnectAttempts
  {
    Settings(
      options.autoConnect.GetOr(true),
      options.reconnectDelay.GetOr(DefaultReconnectDelay),
      options.maxReconnectAttempts.GetOr(DefaultMaxReconnectAttempts))
  }

  // ---------------------------------------------------------------------------
  // The event registry: `Map<string, Set<handler>>`
  // ---------------------------------------------------------------------------

  type Registry = map<string, set<HandlerId>>

  /** Every key holds at least one handler: a key is dropped with its last handler. */
  predicate NoEmptySets(reg: Registry) {
    forall e :: e in reg ==> reg[e] != {}
  }

  /** `eventHandlersRef.current.get(e)`, with a missing key read as the empty set. */
  function HandlersFor(reg: Registry, e: string): set<HandlerId> {
    if e in reg then reg[e] else {}
  }

  /** What `subscribe(e, h)` does to the registry. */
  function AddHandler(reg: Registry, e: string, h: HandlerId): (r: Registry)
    ensures HandlersFor(r, e) == HandlersFor(reg, e) + {h}
    ensures forall e' :: e' != e ==> HandlersFor(r, e') == HandlersFor(reg, e')
    ensures r.Keys == reg.Keys + {e}
    ensures NoEmptySets(reg) ==> NoEmptySets(r)
  {
    reg[e := HandlersFor(reg, e) + {h}]
  }

  /** What the function returned by `subscribe(e, h)` does when called. */
  function RemoveHandler(reg: Registry, e: string, h: HandlerId): (r: Registry)
    ensures HandlersFor(r, e) == HandlersFor(reg, e) - {h}
    ensures forall e' :: e' != e ==> HandlersFor(r, e') == HandlersFor(reg, e')
    ensures e in r <==> HandlersFor(reg, e) - {h} != {}
    ensures forall e' :: e' != e ==> (e' in r <==> e' in reg)
    ensures NoEmptySets(reg) ==> NoEmptySets(r)
  {
    if e !in reg then reg
    else if reg[e] - {h} == {} then reg - {e}
    else reg[e := reg[e] - {h}]
  }

  /** Subscribing a handler not yet registered for `e` and then unsubscribing it restores the registry. */
  lemma SubscribeThenUnsubscribeRestores(reg: Registry, e: string, h: HandlerId)
    requires NoEmptySets(reg)
    requires h !in HandlersFor(reg, e)
    ensures RemoveHandler(AddHandler(reg, e, h), e, h) == reg
  {
    var r := RemoveHandler(AddHandler(reg, e, h), e, h);
    assert r.Keys == reg.Keys;
    forall e' | e' in reg
      ensures r[e'] == reg[e']
    {
      assert HandlersFor(r, e') == HandlersFor(reg, e');
    }
  }

  /** The handler set deduplicates: subscribing the same handler twice registers it once. */
  lemma SubscribeTwiceIsOnce(reg: Registry, e: string, h: HandlerId)
    ensures AddHandler(AddHandler(reg, e, h), e, h) == AddHandler(reg, e, h)
  {
  }

  /**
   * Because the set deduplicates, two subscriptions of one handler share one
   * registration: calling either returned function unregisters it for both.
   */
  lemma SharedRegistration(reg: Registry, e: string, h: HandlerId)
    ensures h !in HandlersFor(RemoveHandler(AddHandler(AddHandler(reg, e, h), e, h), e, h), e)
  {
  }

  /** Calling a returned unsubscribe function a second time changes nothing. */
  lemma UnsubscribeTwiceIsOnce(reg: Registry, e: string, h: HandlerId)
    requires NoEmptySets(reg)
    ensures RemoveHandler(RemoveHandler(reg, e, h), e, h) == RemoveHandler(reg, e, h)
  {
    var once := RemoveHandler(reg, e, h);
    if e in once {
      assert once[e] - {h} == once[e];
      assert once[e := once[e]] == once;
    }
  }

  // ---------------------------------------------------------------------------
  // Dispatch: `handlers.forEach(h => { try { h(data) } catch { log } })`
  // ---------------------------------------------------------------------------

  /** No handler appears twice in a run of deliveries. */
  predicate DistinctHandlers(ds: seq<Delivery>) {
    forall i, j :: 0 <= i < j < |ds| ==> ds[i].handler != ds[j].handler
  }

  /** `h` is among the handlers a run of deliveries invoked. */
  predicate Invoked(ds: seq<Delivery>, h: HandlerId) {
    exists i :: 0 <= i < |ds| && ds[i].handler == h
  }

  /** The deliveries invoke exactly the handlers of `done`, each once, all with `data`. */
  ghost predicate DeliveredExactly(ds: seq<Delivery>, done: set<HandlerId>, data: Option<Json>) {
    && (forall h :: h in done <==> Invoked(ds, h))
    && (forall i :: 0 <= i < |ds| ==> ds[i].data == data)
    && DistinctHandlers(ds)
    && |ds| == |done|
  }

  /** Delivering to one more handler extends the delivered set by it. */
  lemma DeliverOneMore(ds: seq<Delivery>, done: set<HandlerId>, data: Option<Json>, h: HandlerId)
    requires DeliveredExactly(ds, done, data) && h !in done
    ensures DeliveredExactly(ds + [Delivery(h, data)], done + {h}, data)
  {
    var after := ds + [Delivery(h, data)];
    forall g
      ensures Invoked(after, g) <==> g in done || g == h
    {
      if Invoked(after, g) && g != h {
        var i :| 0 <= i < |after| && after[i].handler == g;
        assert i < |ds| && ds[i].handler == g;
      }
      if g in done {
        var i :| 0 <= i < |ds| && ds[i].handler == g;
        assert after[i].handler == g;
      }
      if g == h {
        assert after[|ds|].handler == g;
      }
    }
  }

  /** The loop state of a dispatch: `done` delivered, `rest` still to go, `failed` the throwers among `done`. */
  ghost predicate DispatchState(hs: set<HandlerId>, throwing: set<HandlerId>, data: Option<Json>,
                                ds: seq<Delivery>, done: set<HandlerId>, rest: set<HandlerId>, failed: set<HandlerId>) {
    done + rest == hs && done !! rest && DeliveredExactly(ds, done, data) && failed == done * throwing
  }

  /** One iteration of the dispatch keeps its loop state. */
  lemma DispatchStep(hs: set<HandlerId>, throwing: set<HandlerId>, data: Option<Json>,
                     ds: seq<Delivery>, done: set<HandlerId>, rest: set<HandlerId>, failed: set<HandlerId>, h: HandlerId)
    requires DispatchState(hs, throwing, data, ds, done, rest, failed) && h in rest
    ensures DispatchState(hs, throwing, data, ds + [Delivery(h, data)], done + {h}, rest - {h},
                          if h in throwing then failed + {h} else failed)
  {
    DeliverOneMore(ds, done, data, h);
  }

  /**
   * Invokes every handler of the set taken at the start of the dispatch, each
   * once and with the same `data`, in an order the set chooses. `throwing` are
   * the handlers whose call throws: each such exception is caught and logged
   * (reported in `failed`) and the remaining handlers still run.
   */
  method Dispatch(hs: set<HandlerId>, data: Option<Json>, throwing: set<HandlerId>)
    returns (deliveries: seq<Delivery>, failed: set<HandlerId>)
    ensures forall h :: h in hs <==> Invoked(deliveries, h)
    ensures forall i :: 0 <= i < |deliveries| ==> deliveries[i].data == data
    ensures DistinctHandlers(deliveries)
    ensures |deliveries| == |hs|
    ensures failed == hs * throwing
  {
    deliveries, failed := [], {};
    var rest := hs;
    ghost var done: set<HandlerId> := {};
    while rest != {}
      invariant DispatchState(hs, throwing, data, deliveries, done, rest, failed)
      decreases |rest|
    {
      var h :| h in rest;
      DispatchStep(hs, throwing, data, deliveries, done, rest, failed, h);
      deliveries := deliveries + [Delivery(h, data)];
      if h in throwing {
        failed := failed + {h};
      }
      done, rest := done + {h}, rest - {h};
    }
    assert done == hs;
  }

  // ---------------------------------------------------------------------------
  // The reconnect policy of the close handler
  // ---------------------------------------------------------------------------

  /** The close handler schedules a reconnect: the close was not a normal closure and the budget is not spent. */
  predicate SchedulesReconnect(code: int, attempts: nat, max: nat) {
    code != NormalClosure && attempts < max
  }

  /** The attempt counter after the close handler has run. */
  function AttemptsAfterClose(code: int, attempts: nat, max: nat): (r: nat)
    ensures attempts <= max ==> r <= max
    ensures r == attempts || r == attempts + 1
  {
    if SchedulesReconnect(code, attempts, max) then attempts + 1 else attempts
  }

  /**
   * The number of reconnects scheduled by a run of closes with the given codes
   * when no transport opens in between (an open resets the counter).
   */
  function ReconnectsScheduled(codes: seq<int>, attempts: nat, max: nat): nat {
    if codes == [] then 0
    else
      var now := if SchedulesReconnect(codes[0], attempts, max) then 1 else 0;
      now + ReconnectsScheduled(codes[1..], AttemptsAfterClose(codes[0], attempts, max), max)
  }

  /** However many closes follow one another, at most `max - attempts` reconnects are scheduled. */
  lemma {:induction false} ReconnectCeiling(codes: seq<int>, attempts: nat, max: nat)
    requires attempts <= max
    ensures ReconnectsScheduled(codes, attempts, max) <= max - attempts
  {
    if codes != [] {
      ReconnectCeiling(codes[1..], AttemptsAfterClose(codes[0], attempts, max), max);
    }
  }

  /**
   * After an open the counter is 0, so a run of `n` unplanned closes schedules
   * `min(n, max)` reconnects: the full budget is available again.
   */
  lemma {:induction false} FreshBudget(codes: seq<int>, attempts: nat, max: nat)
    requires attempts <= max
    requires forall i :: 0 <= i < |codes| ==> codes[i] != NormalClosure
    ensures ReconnectsScheduled(codes, attempts, max)
         == if |codes| <= max - attempts then |codes| else max - attempts
  {
    if codes != [] {
      FreshBudget(codes[1..], AttemptsAfterClose(codes[0], attempts, max), max);
    }
  }

  /** Normal closures never schedule a reconnect, whatever the counter. */
  lemma {:induction false} NormalClosuresNeverReconnect(codes: seq<int>, attempts: nat, max: nat)
    requires forall i :: 0 <= i < |codes| ==> codes[i] == NormalClosure
    ensures ReconnectsScheduled(codes, attempts, max) == 0
  {
    if codes != [] {
      NormalClosuresNeverReconnect(codes[1..], attempts, max);
    }
  }

  // ---------------------------------------------------------------------------
  // The channel
  // ---------------------------------------------------------------------------

  class RealtimeChannel {
    const autoConnect: bool
    const reconnectDelay: nat
    const maxReconnectAttempts: nat

    /** `session?.accessToken`; it authenticates only when `HasToken` holds of it. */
    var token: Option<string>
    /** `wsRef.current`: the transport the channel holds, by its ready state; `None` is `null`. */
    var socket: Option<ReadyState>
    /** How many transports `connect` has created. */
    var transportsCreated: nat
    var isConnected: bool
    var isAuthenticated: bool
    /** `reconnectAttemptsRef.current`. */
    var attempts: nat
    /** Reconnect timers scheduled and neither fired nor cleared, with the time each is due. */
    var timers: map<TimerId, int>
    /** `reconnectTimeoutRef.current`: the handle of the last timer scheduled. */
    var timerHandle: Option<TimerId>
    var nextTimer: TimerId
    /** `eventHandlersRef.current`. */
    var handlers: Registry
    /** Every envelope written to a transport, oldest first. */
    var written: seq<Envelope>

    ghost predicate Valid()
      reads this
    {
      && attempts <= maxReconnectAttempts
      && NoEmptySets(handlers)
      && (socket == Some(Open) ==> isConnected)
      && (isAuthenticated ==> isConnected)
      && (forall t :: t in timers ==> t < nextTimer)
      && (timerHandle.Some? ==> timerHandle.value < nextTimer)
    }

    /** The hook's first render: nothing connected, no handler, no timer. */
    constructor (options: WebSocketOptions, token: Option<string>)
      ensures Valid()
      ensures Settings(autoConnect, reconnectDelay, maxReconnectAttempts) == MergeOptions(options)
      ensures this.token == token
      ensures socket == None && transportsCreated == 0 && !isConnected && !isAuthenticated
      ensures attempts == 0 && timers == map[] && timerHandle == None && nextTimer == 0
      ensures handlers == map[] && written == []
    {
      var settings := MergeOptions(options);
      autoConnect := settings.autoConnect;
      reconnectDelay := settings.reconnectDelay;
      maxReconnectAttempts := settings.maxReconnectAttempts;
      this.token := token;
      socket, transportsCreated := None, 0;
      isConnected, isAuthenticated := false, false;
      attempts := 0;
      timers, timerHandle, nextTimer := map[], None, 0;
      handlers, written := map[], [];
    }

    /** `send(kind, data)`: writes one envelope when the transport is open, and does nothing otherwise. */
    method Send(kind: string, data: Option<Json>, now: int)
      modifies this`written
      ensures written == old(written) + (if socket == Some(Open) then [Envelope(kind, data, Some(now))] else [])
    {
      if socket == Some(Open) {
        written := written + [Envelope(kind, data, Some(now))];
      }
    }

    /** `subscribe(e, h)`; the returned function is `Unsubscribe(e, h)`. */
    method Subscribe(e: string, h: HandlerId)
      requires Valid()
      modifies this`handlers
      ensures Valid()
      ensures handlers == AddHandler(old(handlers), e, h)
    {
      handlers := AddHandler(handlers, e, h);
    }

    /** Calls the function `subscribe(e, h)` returned. */
    method Unsubscribe(e: string, h: HandlerId)
      requires Valid()
      modifies this`handlers
      ensures Valid()
      ensures handlers == RemoveHandler(old(handlers), e, h)
    {
      handlers := RemoveHandler(handlers, e, h);
    }

    /**
     * `connect()`: a no-op only while the held transport is OPEN; otherwise it
     * creates a new transport, even when one is still CONNECTING or CLOSING.
     * `creationFails` is the `new WebSocket(...)` call throwing, which is
     * caught and leaves the held transport as it was.
     */
    method Connect(creationFails: bool)
      requires Valid()
      modifies this`socket, this`transportsCreated
      ensures Valid()
      ensures old(socket) == Some(Open) || creationFails ==>
                socket == old(socket) && transportsCreated == old(transportsCreated)
      ensures old(socket) != Some(Open) && !creationFails ==>
                socket == Some(Connecting) && transportsCreated == old(transportsCreated) + 1
    {
      if socket == Some(Open) {
        return;
      }
      if !creationFails {
        socket := Some(Connecting);
        transportsCreated := transportsCreated + 1;
      }
    }

    /** `onopen`: connected, counter reset, and an `auth` envelope written when a non-empty token is present. */
    method TransportOpen(now: int)
      requires Valid()
      requires socket == Some(Connecting)
      modifies this`socket, this`isConnected, this`attempts, this`written
      ensures Valid()
      ensures socket == Some(Open) && isConnected && attempts == 0
      ensures written == old(written) + (if HasToken(token) then [AuthEnvelope(token.value, now)] else [])
    {
      socket := Some(Open);
      isConnected := true;
      attempts := 0;
      if HasToken(token) {
        Send("auth", Some(Obj(map["token" := Str(token.value)])), now);
      }
    }

    /** The transport starts its closing handshake (either side asked to close). */
    method TransportClosing()
      requires Valid()
      requires socket.Some?
      modifies this`socket
      ensures Valid()
      ensures socket == Some(Closing)
    {
      socket := Some(Closing);
    }

    /**
     * `onmessage` (a transport delivers messages only while OPEN). The reserved
     * types set or clear `isAuthenticated`; every parsed message, reserved or
     * not, then goes to the handlers registered under its type. An `auth:error`
     * leaves the transport open. A payload that does not parse reaches nobody.
     */
    method Message(msg: Inbound, throwing: set<HandlerId>)
      returns (deliveries: seq<Delivery>, failed: set<HandlerId>)
      requires Valid()
      requires socket == Some(Open)
      modifies this`isAuthenticated
      ensures Valid()
      ensures msg.Parsed? && msg.envelope.kind == "auth:success" ==> isAuthenticated
      ensures msg.Parsed? && msg.envelope.kind == "auth:error" ==> !isAuthenticated
      ensures !msg.Parsed? || (msg.envelope.kind != "auth:success" && msg.envelope.kind != "auth:error") ==>
                isAuthenticated == old(isAuthenticated)
      ensures msg.Parsed? ==>
                && (forall h :: h in HandlersFor(handlers, msg.envelope.kind) <==> Invoked(deliveries, h))
                && (forall i :: 0 <= i < |deliveries| ==> deliveries[i].data == msg.envelope.data)
                && DistinctHandlers(deliveries)
                && failed == HandlersFor(handlers, msg.envelope.kind) * throwing
      ensures !msg.Parsed? ==> deliveries == [] && failed == {}
    {
      match msg {
        case Parsed(env) =>
          if env.kind == "auth:success" {
            isAuthenticated := true;
          } else if env.kind == "auth:error" {
            isAuthenticated := false;
          }
          deliveries, failed := Dispatch(HandlersFor(handlers, env.kind), env.data, throwing);
        case Untyped =>
          deliveries, failed := [], {};
        case Unparseable =>
          deliveries, failed := [], {};
      }
    }

    /**
     * `onclose`: both flags drop and the held transport is forgotten. A close
     * that is not a normal closure, with attempts left, bumps the counter and
     * schedules a reconnect `reconnectDelay` later; its handle overwrites the
     * stored one without clearing an earlier timer.
     */
    method TransportClose(code: int, now: int)
      requires Valid()
      modifies this`socket, this`isConnected, this`isAuthenticated, this`attempts
      modifies this`timers, this`timerHandle, this`nextTimer
      ensures Valid()
      ensures socket == None && !isConnected && !isAuthenticated
      ensures attempts == AttemptsAfterClose(code, old(attempts), maxReconnectAttempts)
      ensures SchedulesReconnect(code, old(attempts), maxReconnectAttempts) ==>
                && timers == old(timers)[old(nextTimer) := now + reconnectDelay]
                && timerHandle == Some(old(nextTimer))
                && nextTimer == old(nextTimer) + 1
      ensures !SchedulesReconnect(code, old(attempts), maxReconnectAttempts) ==>
                timers == old(timers) && timerHandle == old(timerHandle) && nextTimer == old(nextTimer)
    {
      isConnected := false;
      isAuthenticated := false;
      socket := None;
      if code != NormalClosure && attempts < maxReconnectAttempts {
        attempts := attempts + 1;
        timers := timers[nextTimer := now + reconnectDelay];
        timerHandle := Some(nextTimer);
        nextTimer := nextTimer + 1;
      }
    }

    /** A reconnect timer that is due fires: it is spent, and it calls `connect()`. */
    method TimerFire(t: TimerId, now: int, creationFails: bool)
      requires Valid()
      requires t in timers && timers[t] <= now
      modifies this`timers, this`socket, this`transportsCreated
      ensures Valid()
      ensures timers == old(timers) - {t}
      ensures old(socket) == Some(Open) || creationFails ==>
                socket == old(socket) && transportsCreated == old(transportsCreated)
      ensures old(socket) != Some(Open) && !creationFails ==>
                socket == Some(Connecting) && transportsCreated == old(transportsCreated) + 1
    {
      timers := timers - {t};
      Connect(creationFails);
    }

    /**
     * `disconnect()`: clears the timer whose handle is stored, closes the held
     * transport with code 1000 and forgets it, and clears both flags.
     * `closeCode` is the code the detached transport's close event will carry
     * to the still-attached `onclose`: 1000 when it was open, but 1006 when it
     * was still connecting (RFC 6455, section 7.1.5); `None` when there was no
     * transport or it was already closing with a code chosen earlier.
     */
    method Disconnect() returns (closeCode: Option<int>)
      requires Valid()
      modifies this`timers, this`socket, this`isConnected, this`isAuthenticated
      ensures Valid()
      ensures timers == if old(timerHandle).Some? then old(timers) - {old(timerHandle).value} else old(timers)
      ensures socket == None && !isConnected && !isAuthenticated
      ensures closeCode == match old(socket)
                           case Some(Open) => Some(NormalClosure)
                           case Some(Connecting) => Some(AbnormalClosure)
                           case _ => None
    {
      if timerHandle.Some? {
        timers := timers - {timerHandle.value};
      }
      closeCode := None;
      if socket.Some? {
        closeCode := match socket.value
                     case Open => Some(NormalClosure)
                     case Connecting => Some(AbnormalClosure)
                     case Closing => None;
        socket := None;
      }
      isConnected := false;
      isAuthenticated := false;
    }

    /**
     * The re-authentication effect: while connected with a non-empty token and not yet
     * authenticated, send `auth` again (written only if the transport is open).
     */
    method Reauthenticate(now: int)
      requires Valid()
      modifies this`written
      ensures Valid()
      ensures written == old(written) +
                (if isConnected && HasToken(token) && !isAuthenticated && socket == Some(Open)
                 then [AuthEnvelope(token.value, now)] else [])
    {
      if isConnected && HasToken(token) && !isAuthenticated {
        Send("auth", Some(Obj(map["token" := Str(token.value)])), now);
      }
    }

    /** The session's token changes, and the re-authentication effect runs. */
    method SessionChanged(newToken: Option<string>, now: int)
      requires Valid()
      modifies this`token, this`written
      ensures Valid()
      ensures token == newToken
      ensures written == old(written) +
                (if isConnected && HasToken(newToken) && !isAuthenticated && socket == Some(Open)
                 then [AuthEnvelope(newToken.value, now)] else [])
    {
      token := newToken;
      Reauthenticate(now);
    }

    /** The auto-connect effect on mount. */
    method Mount(creationFails: bool)
      requires Valid()
      modifies this`socket, this`transportsCreated
      ensures Valid()
      ensures !autoConnect ==> socket == old(socket) && transportsCreated == old(transportsCreated)
      ensures autoConnect && (old(socket) == Some(Open) || creationFails) ==>
                socket == old(socket) && transportsCreated == old(transportsCreated)
      ensures autoConnect && old(socket) != Some(Open) && !creationFails ==>
                socket == Some(Connecting) && transportsCreated == old(transportsCreated) + 1
    {
      if autoConnect {
        Connect(creationFails);
      }
    }
  }

  // ---------------------------------------------------------------------------
  // Scenarios: event sequences run against the channel's contracts
  // ---------------------------------------------------------------------------

  /**
   * With a non-empty token, the open handler writes `auth`, and the re-authentication
   * effect that runs once `isConnected` has become true writes it again, as
   * long as no `auth:success` has arrived in between.
   */
  method AuthSentTwiceAfterOpen(tok: string) returns (sent: seq<Envelope>)
    requires tok != ""
    ensures sent == [AuthEnvelope(tok, 1), AuthEnvelope(tok, 2)]
  {
    var ch := new RealtimeChannel(NoOptions, Some(tok));
    ch.Mount(false);
    ch.TransportOpen(1);
    ch.Reauthenticate(2);
    sent := ch.written;
  }

  /**
   * An empty access token is falsy: neither the open handler nor the
   * re-authentication effect writes `auth` for it.
   */
  method EmptyTokenSendsNoAuth() returns (sent: seq<Envelope>, connected: bool)
    ensures sent == [] && connected
  {
    var ch := new RealtimeChannel(NoOptions, Some(""));
    ch.Mount(false);
    ch.TransportOpen(1);
    ch.Reauthenticate(2);
    sent, connected := ch.written, ch.isConnected;
  }

  /**
   * With no options the hook connects on mount, and an unplanned close
   * schedules a reconnect 3000 ms later.
   */
  method DefaultOptionsConnectOnMount() returns (created: nat, dueAt: int)
    ensures created == 1 && dueAt == 3000
  {
    var ch := new RealtimeChannel(NoOptions, None);
    ch.Mount(false);
    created := ch.transportsCreated;
    ch.TransportOpen(0);
    ch.TransportClose(AbnormalClosure, 0);
    dueAt := ch.timers[0];
  }

  /**
   * A disconnect while the transport is still connecting: the detached
   * transport's close event reports 1006, which the attached close handler
   * treats as unplanned, so one reconnect is scheduled after the disconnect.
   */
  method DisconnectWhileConnectingReconnects() returns (pendingAfterwards: nat)
    ensures pendingAfterwards == 1
  {
    var ch := new RealtimeChannel(NoOptions, None);
    ch.Mount(false);
    var code := ch.Disconnect();
    assert code == Some(AbnormalClosure);
    ch.TransportClose(code.value, 10);
    pendingAfterwards := |ch.timers|;
  }

  /** A disconnect of an open transport is followed by a normal closure, which schedules nothing. */
  method DisconnectWhileOpenStaysDown() returns (pendingAfterwards: nat, connected: bool)
    ensures pendingAfterwards == 0 && !connected
  {
    var ch := new RealtimeChannel(WebSocketOptions(None, Some(100), None), None);
    ch.Mount(false);
    ch.TransportOpen(0);
    var code := ch.Disconnect();
    ch.TransportClose(code.value, 1);
    pendingAfterwards, connected := |ch.timers|, ch.isConnected;
  }

  /**
   * The counter resets on every open: with `maxReconnectAttempts = 2`, three
   * unplanned closes each followed by a successful reopen all schedule a
   * reconnect. Only consecutive failed attempts are bounded.
   */
  method CeilingBoundsOnlyConsecutiveFailures() returns (reconnects: nat)
    ensures reconnects == 3
  {
    var ch := new RealtimeChannel(WebSocketOptions(None, Some(100), Some(2)), None);
    ch.Mount(false);
    reconnects := 0;
    var round := 0;
    while round < 3
      invariant 0 <= round <= 3 && reconnects == round
      invariant ch.Valid() && ch.socket == Some(Connecting) && ch.maxReconnectAttempts == 2
      invariant ch.reconnectDelay == 100 && ch.nextTimer == round
      invariant forall t :: t in ch.timers ==> t < round
    {
      ch.TransportOpen(1000 * round);
      ch.TransportClose(AbnormalClosure, 1000 * round);
      assert round in ch.timers;
      reconnects := reconnects + 1;
      ch.TimerFire(round, 1000 * round + 100, false);
      round := round + 1;
    }
  }

  /** Without an open in between, the third unplanned close finds the budget of 2 spent. */
  method ConsecutiveFailuresExhaustBudget() returns (scheduled: seq<nat>)
    ensures scheduled == [1, 2, 2]
  {
    var ch := new RealtimeChannel(WebSocketOptions(None, Some(100), Some(2)), None);
    ch.Mount(false);
    ch.TransportOpen(0);
    ch.TransportClose(AbnormalClosure, 0);
    scheduled := [ch.nextTimer];
    ch.TimerFire(0, 100, false);
    ch.TransportClose(AbnormalClosure, 200);
    scheduled := scheduled + [ch.nextTimer];
    ch.TimerFire(1, 300, false);
    ch.TransportClose(AbnormalClosure, 400);
    scheduled := scheduled + [ch.nextTimer];
  }

  /**
   * A timer whose handle was overwritten survives `disconnect`: close, call
   * `connect()` by hand before the timer fires, and let that transport fail
   * too; disconnect clears only the second timer and the first still fires.
   */
  method OverwrittenTimerSurvivesDisconnect() returns (pendingAfterwards: nat)
    ensures pendingAfterwards == 1
  {
    var ch := new RealtimeChannel(NoOptions, None);
    ch.Mount(false);
    ch.TransportOpen(0);
    ch.TransportClose(AbnormalClosure, 10);
    ch.Connect(false);
    ch.TransportClose(AbnormalClosure, 20);
    var code := ch.Disconnect();
    pendingAfterwards := |ch.timers|;
  }
}

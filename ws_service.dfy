/**
 * The real-time update client (src/services/ws.ts): one connection manager
 * that fetches a connection token, opens a WebSocket, sends a heartbeat
 * while the socket is open, reconnects with linear back-off after a drop,
 * and fans every inbound message out to its subscribers.
 *
 * The browser drives the client through callbacks; each callback is a
 * method here. What the browser does between callbacks (the token fetch,
 * the socket handshake, timers) is recorded in ghost counters, and the
 * preconditions of the callback methods say when the browser can fire them.
 */
module WsService {
  import opened Wrappers
  import opened Events

  const MaxReconnectAttempts: nat := 5
  /** Milliseconds; the n-th reconnect in a row waits n times this long. */
  const ReconnectTimeout: nat := 1000

  /** A subscriber callback, identified by reference as a JavaScript `Set` does. */
  type HandlerId = nat

  /** A handle returned by `setInterval`. */
  type TimerId = nat

  /**
   * What `this.ws` refers to: nothing (`null`), or a socket in one of its
   * four ready states CONNECTING, OPEN, CLOSING and CLOSED.
   */
  datatype Transport = NoSocket | Connecting | Open | Closing | Closed

  /** A socket that will still fire its close event. */
  predicate Live(t: Transport)
  {
    t == Connecting || t == Open || t == Closing
  }

  // ---------------------------------------------------------------------
  // The subscriber registry: a JavaScript `Set`, which keeps insertion
  // order and holds each element at most once.

  predicate NoDuplicates(s: seq<HandlerId>)
  {
    forall i, j :: 0 <= i < j < |s| ==> s[i] != s[j]
  }

  /** `set.add(h)`: appends `h` unless it is already there. */
  function SetAdd(s: seq<HandlerId>, h: HandlerId): (r: seq<HandlerId>)
    ensures NoDuplicates(s) ==> NoDuplicates(r)
    ensures forall x :: x in r <==> x in s || x == h
    ensures |s| <= |r| && r[..|s|] == s
  {
    if h in s then s else s + [h]
  }

  /** The elements of `r` occur in `s` in the same order. */
  predicate IsSubsequence(r: seq<HandlerId>, s: seq<HandlerId>)
    decreases |s|
  {
    if r == [] then true
    else if s == [] then false
    else if r[0] == s[0] then IsSubsequence(r[1..], s[1..])
    else IsSubsequence(r, s[1..])
  }

  /** `set.delete(h)`: removes `h`, keeping the others in order. */
  function SetDelete(s: seq<HandlerId>, h: HandlerId): (r: seq<HandlerId>)
    ensures h !in r
    ensures forall x :: x != h ==> (x in r <==> x in s)
    ensures IsSubsequence(r, s)
    ensures NoDuplicates(s) ==> NoDuplicates(r)
    decreases |s|
  {
    if s == [] then []
    else if s[0] == h then SetDelete(s[1..], h)
    else
      var rest := SetDelete(s[1..], h);
      assert NoDuplicates(s) ==> s[0] !in s[1..] by {
        if NoDuplicates(s) {
          forall j | 0 <= j < |s[1..]|
            ensures s[1..][j] != s[0]
          {
            assert s[1..][j] == s[j + 1];
          }
        }
      }
      assert NoDuplicates(s) ==> NoDuplicates(s[1..]) by {
        if NoDuplicates(s) {
          forall i, j | 0 <= i < j < |s[1..]|
            ensures s[1..][i] != s[1..][j]
          {
            assert s[1..][i] == s[i + 1] && s[1..][j] == s[j + 1];
          }
        }
      }
      assert ([s[0]] + rest)[1..] == rest;
      [s[0]] + rest
  }

  /** Deleting a handler that is not subscribed changes nothing. */
  lemma {:induction false} DeleteAbsent(s: seq<HandlerId>, h: HandlerId)
    requires h !in s
    ensures SetDelete(s, h) == s
    decreases |s|
  {
    if s != [] {
      DeleteAbsent(s[1..], h);
      assert [s[0]] + s[1..] == s;
    }
  }

  /** Calling an unsubscribe function a second time is a no-op. */
  lemma DeleteIdempotent(s: seq<HandlerId>, h: HandlerId)
    ensures SetDelete(SetDelete(s, h), h) == SetDelete(s, h)
  {
    DeleteAbsent(SetDelete(s, h), h);
  }

  /** Unsubscribing a fresh subscription restores the registry exactly. */
  lemma {:induction false} DeleteUndoesAdd(s: seq<HandlerId>, h: HandlerId)
    requires h !in s
    ensures SetDelete(SetAdd(s, h), h) == s
    decreases |s|
  {
    assert SetAdd(s, h) == s + [h];
    if s == [] {
      assert SetDelete([h], h) == SetDelete([h][1..], h);
    } else {
      var t := s[1..];
      assert (s + [h])[0] == s[0] && (s + [h])[1..] == t + [h];
      DeleteUndoesAdd(t, h);
      assert SetAdd(t, h) == t + [h];
      assert [s[0]] + t == s;
    }
  }

  /** One call of a subscriber with the message it receives. */
  datatype Delivery = Delivery(handler: HandlerId, message: WsMessage)

  // ---------------------------------------------------------------------
  // Back-off.

  /** What `reconnect()` does for a given attempt counter. */
  datatype ReconnectOutcome = GiveUp | Schedule(attempt: nat, delay: nat)

  function Reconnection(attempts: nat): (r: ReconnectOutcome)
    ensures r.GiveUp? <==> attempts >= MaxReconnectAttempts
    ensures r.Schedule? ==> r.attempt == attempts + 1 && r.attempt <= MaxReconnectAttempts
    ensures r.Schedule? ==> r.delay == ReconnectTimeout * r.attempt
  {
    if attempts >= MaxReconnectAttempts then GiveUp
    else Schedule(attempts + 1, ReconnectTimeout * (attempts + 1))
  }

  function Min(a: int, b: int): int
  {
    if a <= b then a else b
  }

  /**
   * The delays scheduled by `failures` calls of `reconnect()` in a row,
   * with no successful open in between, starting from counter `attempts`.
   */
  function FailureDelays(attempts: nat, failures: nat): (delays: seq<nat>)
    ensures |delays| <= failures
    ensures forall i :: 0 <= i < |delays| ==>
      ReconnectTimeout <= delays[i] <= ReconnectTimeout * MaxReconnectAttempts
      && delays[i] % ReconnectTimeout == 0
    decreases failures
  {
    if failures == 0 then []
    else
      match Reconnection(attempts)
      case GiveUp => FailureDelays(attempts, failures - 1)
      case Schedule(next, delay) => [delay] + FailureDelays(next, failures - 1)
  }

  /**
   * Linear back-off: consecutive failures schedule delays that grow by one
   * `ReconnectTimeout` each, and stop once the counter reaches the cap.
   */
  lemma {:induction false} FailureDelaysLinear(attempts: nat, failures: nat)
    requires attempts <= MaxReconnectAttempts
    ensures |FailureDelays(attempts, failures)| == Min(failures, MaxReconnectAttempts - attempts)
    ensures forall i :: 0 <= i < |FailureDelays(attempts, failures)| ==>
      FailureDelays(attempts, failures)[i] == ReconnectTimeout * (attempts + i + 1)
    decreases failures
  {
    if failures > 0 {
      if attempts == MaxReconnectAttempts {
        ExhaustedSchedulesNothing(attempts, failures);
      } else {
        FailureDelaysLinear(attempts + 1, failures - 1);
      }
    }
  }

  /** Once the counter is at the cap, no failure schedules anything. */
  lemma {:induction false} ExhaustedSchedulesNothing(attempts: nat, failures: nat)
    requires attempts >= MaxReconnectAttempts
    ensures FailureDelays(attempts, failures) == []
    decreases failures
  {
    if failures > 0 {
      ExhaustedSchedulesNothing(attempts, failures - 1);
    }
  }

  /** A client that never connects waits 1, 2, 3, 4 and 5 seconds, then gives up. */
  lemma FreshClientDelays(failures: nat)
    requires failures >= MaxReconnectAttempts
    ensures FailureDelays(0, failures) == [1000, 2000, 3000, 4000, 5000]
  {
    FailureDelaysLinear(0, failures);
  }

  // ---------------------------------------------------------------------
  // The client.

  class WebSocketService {
    var ws: Transport
    var handlers: seq<HandlerId>
    var reconnectAttempts: nat
    var heartbeatInterval: Option<TimerId>
    /** The timer runtime's handle counter: each `setInterval` takes the next one. */
    var nextTimerId: TimerId

    /** Interval timers set and not yet cleared. */
    ghost var activeIntervals: set<TimerId>
    /** `connect()` calls waiting for the token request. */
    ghost var pendingConnects: nat
    /** Reconnect timers set and not yet fired. */
    ghost var pendingReconnects: nat
    /** Sockets `close()` has closed whose close event has not arrived yet. */
    ghost var closingSockets: nat
    /** The reconnect delays scheduled since the last successful open. */
    ghost var delaysSinceOpen: seq<nat>
    /** The messages written to the transport. */
    ghost var sent: seq<WsMessage>

    ghost predicate BackoffInvariant()
      reads this
    {
      && reconnectAttempts <= MaxReconnectAttempts
      && |delaysSinceOpen| == reconnectAttempts
      && forall i :: 0 <= i < |delaysSinceOpen| ==> delaysSinceOpen[i] == ReconnectTimeout * (i + 1)
    }

    /** The handle in `heartbeatInterval` is the only interval running. */
    ghost predicate HeartbeatInvariant()
      reads this
    {
      activeIntervals == if heartbeatInterval.Some? then {heartbeatInterval.value} else {}
    }

    /**
     * Connection attempts in flight: token requests, reconnect timers and
     * sockets that will still close.
     */
    ghost function InFlight(): nat
      reads this
    {
      pendingConnects + pendingReconnects + closingSockets + (if Live(ws) then 1 else 0)
    }

    ghost predicate Valid()
      reads this
    {
      && BackoffInvariant()
      && HeartbeatInvariant()
      && NoDuplicates(handlers)
      && InFlight() <= 1
    }

    /** `new WebSocketService()`, which calls `connect()` at once. */
    constructor ()
      ensures Valid()
      ensures ws == NoSocket && handlers == [] && reconnectAttempts == 0
      ensures heartbeatInterval == None && sent == []
      ensures pendingConnects == 1 && pendingReconnects == 0 && closingSockets == 0
    {
      ws := NoSocket;
      handlers := [];
      reconnectAttempts := 0;
      heartbeatInterval := None;
      nextTimerId := 1;
      activeIntervals := {};
      pendingConnects := 0;
      pendingReconnects := 0;
      closingSockets := 0;
      delaysSinceOpen := [];
      sent := [];
      new;
      Connect();
    }

    /** Clears any running heartbeat before setting the new one. */
    method StartHeartbeat()
      requires HeartbeatInvariant()
      modifies this`heartbeatInterval, this`nextTimerId, this`activeIntervals
      ensures HeartbeatInvariant()
      ensures heartbeatInterval == Some(old(nextTimerId)) && nextTimerId == old(nextTimerId) + 1
      ensures activeIntervals == {old(nextTimerId)}
    {
      if heartbeatInterval.Some? {
        activeIntervals := activeIntervals - {heartbeatInterval.value};
      }
      heartbeatInterval := Some(nextTimerId);
      activeIntervals := activeIntervals + {nextTimerId};
      nextTimerId := nextTimerId + 1;
    }

    /** Clears the heartbeat if one is running; otherwise does nothing. */
    method StopHeartbeat()
      requires HeartbeatInvariant()
      modifies this`heartbeatInterval, this`activeIntervals
      ensures HeartbeatInvariant()
      ensures heartbeatInterval == None && activeIntervals == {}
      ensures old(heartbeatInterval) == None ==> activeIntervals == old(activeIntervals)
    {
      if heartbeatInterval.Some? {
        activeIntervals := activeIntervals - {heartbeatInterval.value};
        heartbeatInterval := None;
      }
    }

    /** `connect()` up to its first `await`: the token request goes out. */
    method Connect()
      modifies this`pendingConnects
      ensures pendingConnects == old(pendingConnects) + 1
    {
      pendingConnects := pendingConnects + 1;
    }

    /** `reconnect()`: gives up at the cap, else bumps the counter and sets a timer. */
    method Reconnect()
      requires BackoffInvariant()
      modifies this`reconnectAttempts, this`pendingReconnects, this`delaysSinceOpen
      ensures BackoffInvariant()
      ensures Reconnection(old(reconnectAttempts)).GiveUp? ==>
        && reconnectAttempts == old(reconnectAttempts)
        && pendingReconnects == old(pendingReconnects)
        && delaysSinceOpen == old(delaysSinceOpen)
      ensures Reconnection(old(reconnectAttempts)).Schedule? ==>
        && reconnectAttempts == Reconnection(old(reconnectAttempts)).attempt
        && pendingReconnects == old(pendingReconnects) + 1
        && delaysSinceOpen == old(delaysSinceOpen) + [Reconnection(old(reconnectAttempts)).delay]
    {
      if reconnectAttempts >= MaxReconnectAttempts {
        return;
      }
      reconnectAttempts := reconnectAttempts + 1;
      pendingReconnects := pendingReconnects + 1;
      delaysSinceOpen := delaysSinceOpen + [ReconnectTimeout * reconnectAttempts];
    }

    /**
     * The token request of a pending `connect()` succeeded and a new socket
     * was constructed. No earlier socket is still live at that point.
     */
    method TokenFetched()
      requires Valid() && pendingConnects > 0
      modifies this`ws, this`pendingConnects
      ensures Valid()
      ensures !Live(old(ws)) && old(closingSockets) == 0
      ensures ws == Connecting && pendingConnects == old(pendingConnects) - 1
    {
      pendingConnects := pendingConnects - 1;
      ws := Connecting;
    }

    /** The `catch` of `connect()`: the token request or the socket constructor threw. */
    method ConnectFailed()
      requires Valid() && pendingConnects > 0
      modifies this`pendingConnects, this`reconnectAttempts, this`pendingReconnects, this`delaysSinceOpen
      ensures Valid()
      ensures pendingConnects == old(pendingConnects) - 1
      ensures Reconnection(old(reconnectAttempts)).GiveUp? ==>
        reconnectAttempts == old(reconnectAttempts) && pendingReconnects == old(pendingReconnects)
      ensures Reconnection(old(reconnectAttempts)).Schedule? ==>
        && reconnectAttempts == old(reconnectAttempts) + 1
        && pendingReconnects == old(pendingReconnects) + 1
        && delaysSinceOpen == old(delaysSinceOpen) + [ReconnectTimeout * reconnectAttempts]
    {
      pendingConnects := pendingConnects - 1;
      Reconnect();
    }

    /** `onopen` of the current socket: reset the counter, start the heartbeat. */
    method OnOpen()
      requires Valid() && ws == Connecting
      modifies this`ws, this`reconnectAttempts, this`delaysSinceOpen,
        this`heartbeatInterval, this`nextTimerId, this`activeIntervals
      ensures Valid()
      ensures ws == Open && reconnectAttempts == 0 && delaysSinceOpen == []
      ensures heartbeatInterval == Some(old(nextTimerId)) && activeIntervals == {old(nextTimerId)}
    {
      ws := Open;
      reconnectAttempts := 0;
      delaysSinceOpen := [];
      StartHeartbeat();
    }

    /**
     * The closing handshake of the current socket begins (the server or the
     * network closed it): readyState becomes CLOSING; `onclose` follows.
     */
    method ClosingStarted()
      requires Valid() && ws == Open
      modifies this`ws
      ensures Valid() && ws == Closing
    {
      ws := Closing;
    }

    /**
     * `onmessage`: the parsed message goes to every subscriber in insertion
     * order. A subscriber in `throwing` throws; nothing catches it, so the
     * subscribers after it are not called.
     */
    method OnMessage(msg: WsMessage, throwing: set<HandlerId>) returns (delivered: seq<Delivery>, aborted: bool)
      requires ws == Open
      ensures |delivered| <= |handlers|
      ensures forall i :: 0 <= i < |delivered| ==> delivered[i] == Delivery(handlers[i], msg)
      ensures aborted <==> exists i :: 0 <= i < |handlers| && handlers[i] in throwing
      ensures !aborted ==> |delivered| == |handlers|
      ensures aborted ==>
        && |delivered| > 0 && handlers[|delivered| - 1] in throwing
        && forall i :: 0 <= i < |delivered| - 1 ==> handlers[i] !in throwing
    {
      delivered := [];
      aborted := false;
      var i := 0;
      while i < |handlers|
        invariant 0 <= i <= |handlers|
        invariant |delivered| == i
        invariant forall j :: 0 <= j < i ==> delivered[j] == Delivery(handlers[j], msg)
        invariant forall j :: 0 <= j < i ==> handlers[j] !in throwing
      {
        delivered := delivered + [Delivery(handlers[i], msg)];
        if handlers[i] in throwing {
          aborted := true;
          return;
        }
        i := i + 1;
      }
    }

    /**
     * `onclose`, either of the current socket (`current`) or of a socket
     * `close()` already let go of: stop the heartbeat and reconnect.
     */
    method OnClose(current: bool)
      requires Valid()
      requires current ==> Live(ws)
      requires !current ==> closingSockets > 0
      modifies this`ws, this`closingSockets, this`heartbeatInterval, this`activeIntervals,
        this`reconnectAttempts, this`pendingReconnects, this`delaysSinceOpen
      ensures Valid()
      ensures ws == (if current then Closed else old(ws))
      ensures closingSockets == (if current then old(closingSockets) else old(closingSockets) - 1)
      ensures heartbeatInterval == None && activeIntervals == {}
      ensures Reconnection(old(reconnectAttempts)).GiveUp? ==>
        reconnectAttempts == old(reconnectAttempts) && pendingReconnects == old(pendingReconnects)
      ensures Reconnection(old(reconnectAttempts)).Schedule? ==>
        && reconnectAttempts == old(reconnectAttempts) + 1
        && pendingReconnects == old(pendingReconnects) + 1
        && delaysSinceOpen == old(delaysSinceOpen) + [ReconnectTimeout * reconnectAttempts]
    {
      if current {
        ws := Closed;
      } else {
        closingSockets := closingSockets - 1;
      }
      StopHeartbeat();
      Reconnect();
    }

    /** A reconnect timer fires and calls `connect()`. */
    method ReconnectTimerFired()
      requires Valid() && pendingReconnects > 0
      modifies this`pendingReconnects, this`pendingConnects
      ensures Valid()
      ensures pendingReconnects == old(pendingReconnects) - 1
      ensures pendingConnects == old(pendingConnects) + 1
    {
      pendingReconnects := pendingReconnects - 1;
      Connect();
    }

    /** The heartbeat interval fires and sends `{type: 'ping'}`. */
    method HeartbeatFired()
      requires Valid() && heartbeatInterval.Some?
      modifies this`sent
      ensures Valid()
      ensures sent == if ws == Open then old(sent) + [HeartbeatMessage] else old(sent)
    {
      Send(HeartbeatMessage);
    }

    /** `subscribe(h)`: adds `h`; `Unsubscribe(h)` is the function it returns. */
    method Subscribe(h: HandlerId)
      requires Valid()
      modifies this`handlers
      ensures Valid()
      ensures handlers == SetAdd(old(handlers), h)
    {
      handlers := SetAdd(handlers, h);
    }

    /** The function `subscribe(h)` returns: `set.delete(h)`, true if `h` was there. */
    method Unsubscribe(h: HandlerId) returns (removed: bool)
      requires Valid()
      modifies this`handlers
      ensures Valid()
      ensures removed <==> h in old(handlers)
      ensures handlers == SetDelete(old(handlers), h)
    {
      removed := h in handlers;
      handlers := SetDelete(handlers, h);
    }

    /** `send(m)`: writes only on an open socket; otherwise drops `m` without throwing. */
    method Send(m: WsMessage)
      requires Valid()
      modifies this`sent
      ensures Valid()
      ensures sent == if ws == Open then old(sent) + [m] else old(sent)
    {
      if ws == Open {
        sent := sent + [m];
      }
    }

    /** `close()`: stop the heartbeat, close the socket if any, forget it. */
    method Close()
      requires Valid()
      modifies this`heartbeatInterval, this`activeIntervals, this`ws, this`closingSockets
      ensures Valid()
      ensures ws == NoSocket && heartbeatInterval == None && activeIntervals == {}
      ensures closingSockets == old(closingSockets) + (if Live(old(ws)) then 1 else 0)
      ensures old(ws) == NoSocket && old(heartbeatInterval) == None ==> unchanged(this)
    {
      StopHeartbeat();
      if ws != NoSocket {
        closingSockets := closingSockets + (if Live(ws) then 1 else 0);
        ws := NoSocket;
      }
    }
  }

  /** The delays recorded since the last open are the back-off series. */
  lemma DelaysSinceOpenAreBackoff(c: WebSocketService)
    requires c.Valid()
    ensures c.delaysSinceOpen == FailureDelays(0, c.reconnectAttempts)
  {
    FailureDelaysLinear(0, c.reconnectAttempts);
  }

  /** At most one heartbeat interval and at most one socket are ever live. */
  lemma SingleHeartbeatAndSocket(c: WebSocketService)
    requires c.Valid()
    ensures |c.activeIntervals| <= 1
    ensures c.closingSockets + (if Live(c.ws) then 1 else 0) <= 1
    ensures c.pendingReconnects <= 1
  {
  }

  // ---------------------------------------------------------------------
  // Clients of the specification.

  /** A new client whose first socket has opened, with no subscribers yet. */
  method OpenClient() returns (client: WebSocketService)
    ensures fresh(client) && client.Valid()
    ensures client.ws == Open && client.handlers == []
  {
    client := new WebSocketService();
    client.TokenFetched();
    client.OnOpen();
  }

  /**
   * Three subscribers each receive a comment update once; after one
   * unsubscribes (twice), only the other two receive the next one.
   */
  method FanOutScenario()
  {
    var client := OpenClient();
    client.Subscribe(1);
    client.Subscribe(2);
    client.Subscribe(3);
    assert client.handlers == [1, 2, 3];
    var update := Encode(CommentUpdate("42", "7", Create));
    var first, _ := client.OnMessage(update, {});
    assert first == [Delivery(1, update), Delivery(2, update), Delivery(3, update)];
    assert SetDelete([1, 2, 3], 2) == [1, 3] by {
      assert SetDelete([3][1..], 2) == [];
      assert [1, 2, 3][1..] == [2, 3] && [2, 3][1..] == [3];
    }
    var removed := client.Unsubscribe(2);
    assert removed && client.handlers == [1, 3];
    DeleteIdempotent([1, 2, 3], 2);
    removed := client.Unsubscribe(2);
    assert !removed && client.handlers == [1, 3];
    var second, _ := client.OnMessage(update, {});
    assert second == [Delivery(1, update), Delivery(3, update)];
  }

  /** A throwing subscriber keeps the ones after it from being called. */
  method ThrowingSubscriberScenario()
  {
    var client := OpenClient();
    client.Subscribe(1);
    client.Subscribe(2);
    assert client.handlers == [1, 2];
    var delivered, aborted := client.OnMessage(HeartbeatMessage, {1});
    assert client.handlers[0] in {1};
    assert aborted && |delivered| == 1;
    assert delivered == [Delivery(1, HeartbeatMessage)];
  }

  /**
   * Once the socket is closing, the heartbeat writes nothing; its close
   * event then stops the heartbeat and schedules a reconnect.
   */
  method ClosingHeartbeatScenario()
  {
    var client := new WebSocketService();
    client.TokenFetched();
    client.OnOpen();
    client.ClosingStarted();
    client.HeartbeatFired();
    assert client.sent == [];
    client.OnClose(true);
    assert client.heartbeatInterval == None && client.ws == Closed;
    assert client.pendingReconnects == 1;
  }

  /** Two drops in a row wait one second and then two seconds. */
  method BackoffScenario()
  {
    var client := new WebSocketService();
    client.TokenFetched();
    client.OnOpen();
    client.Send(HeartbeatMessage);
    assert client.sent == [HeartbeatMessage];
    client.OnClose(true);
    assert client.delaysSinceOpen == [1000];
    client.Send(HeartbeatMessage);
    assert client.sent == [HeartbeatMessage];
    client.ReconnectTimerFired();
    client.TokenFetched();
    client.OnClose(true);
    assert client.delaysSinceOpen == [1000, 2000];
  }

  /**
   * `close()` sets no flag: the close event of the socket it closed still
   * reaches `reconnect()`, which schedules a new connection.
   */
  method CloseThenCloseEventScenario()
  {
    var client := new WebSocketService();
    client.TokenFetched();
    client.OnOpen();
    client.Close();
    client.Close();
    assert client.ws == NoSocket && client.heartbeatInterval == None;
    client.OnClose(false);
    assert client.pendingReconnects == 1 && client.delaysSinceOpen == [1000];
  }
}

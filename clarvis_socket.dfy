/**
 * The browser client's WebSocket connection (clarvis/public/js/ws.js): it
 * connects, reconnects after an unexpected close with a delay doubling from
 * one second, gives up after ten attempts, and never reconnects after the
 * server refused the password (close code 4001). The socket is reduced to
 * whether it exists and whether it is open; timers are reduced to the delay
 * of the one armed, and the callbacks to the list of those called.
 */
module ClarvisSocket {
  import opened Util

  const MaxReconnectAttempts := 10
  const BaseReconnectDelay := 1000
  const Unauthorized := 4001

  /** The callbacks of `handlers` the connection calls. */
  datatype Event = Connected | Disconnected | AuthError | Reconnecting(attempt: nat, max: nat) | MaxAttempts

  datatype Socket = Socket(open: bool)

  /** `Math.pow(2, n)`. */
  function Pow2(n: nat): (r: nat)
    ensures r >= 1
  {
    if n == 0 then 1 else 2 * Pow2(n - 1)
  }

  /** The delay before reconnect attempt `n + 1`, counting attempts from 0. */
  function Delay(n: nat): (r: nat)
    ensures r >= BaseReconnectDelay
  {
    BaseReconnectDelay * Pow2(n)
  }

  /** Each delay is twice the one before. */
  lemma DelayDoubles(n: nat)
    ensures Delay(n + 1) == 2 * Delay(n)
  {
  }

  /** The closure `createWebSocket` returns, with its `ws`, `reconnectAttempts` and `reconnectTimeout`. */
  class Connection {
    var ws: Option<Socket>
    var reconnectAttempts: nat
    var timer: Option<nat>      // the delay of an armed reconnect timer
    var events: seq<Event>
    var sent: seq<string>

    /** `createWebSocket`: connects at once. */
    constructor()
      ensures ws == Some(Socket(false)) && reconnectAttempts == 0 && timer == None && events == [] && sent == []
    {
      ws := Some(Socket(false));
      reconnectAttempts := 0;
      timer := None;
      events := [];
      sent := [];
    }

    /** `connect` (also returned as `reconnect`): a new socket, not yet open. */
    method Connect()
      modifies this
      ensures ws == Some(Socket(false)) && reconnectAttempts == old(reconnectAttempts)
      ensures timer == old(timer) && events == old(events) && sent == old(sent)
    {
      ws := Some(Socket(false));
    }

    /** `onopen`: the attempt counter starts again from zero. */
    method OnOpen()
      requires ws.Some?
      modifies this
      ensures ws == Some(Socket(true)) && reconnectAttempts == 0
      ensures timer == old(timer) && events == old(events) + [Connected] && sent == old(sent)
    {
      ws := Some(Socket(true));
      reconnectAttempts := 0;
      events := events + [Connected];
    }

    /** `scheduleReconnect`: after ten attempts it gives up; otherwise it arms a timer of `Delay(attempts)`. */
    method ScheduleReconnect()
      modifies this
      ensures ws == old(ws) && sent == old(sent)
      ensures old(reconnectAttempts) >= MaxReconnectAttempts ==>
                events == old(events) + [MaxAttempts] && timer == old(timer)
                && reconnectAttempts == old(reconnectAttempts)
      ensures old(reconnectAttempts) < MaxReconnectAttempts ==>
                timer == Some(Delay(old(reconnectAttempts)))
                && reconnectAttempts == old(reconnectAttempts) + 1
                && events == old(events) + [Reconnecting(reconnectAttempts, MaxReconnectAttempts)]
    {
      if reconnectAttempts >= MaxReconnectAttempts {
        events := events + [MaxAttempts];
        return;
      }
      var delay := Delay(reconnectAttempts);
      reconnectAttempts := reconnectAttempts + 1;
      events := events + [Reconnecting(reconnectAttempts, MaxReconnectAttempts)];
      timer := Some(delay);
    }

    /** `onclose`: the socket is dropped; 4001 reports an auth error and stops, anything else reconnects. */
    method OnClose(code: int)
      modifies this
      ensures ws == None && sent == old(sent)
      ensures code == Unauthorized ==>
                events == old(events) + [AuthError] && timer == old(timer)
                && reconnectAttempts == old(reconnectAttempts)
      ensures code != Unauthorized && old(reconnectAttempts) >= MaxReconnectAttempts ==>
                events == old(events) + [Disconnected, MaxAttempts] && timer == old(timer)
                && reconnectAttempts == old(reconnectAttempts)
      ensures code != Unauthorized && old(reconnectAttempts) < MaxReconnectAttempts ==>
                timer == Some(Delay(old(reconnectAttempts)))
                && reconnectAttempts == old(reconnectAttempts) + 1
                && events == old(events) + [Disconnected, Reconnecting(reconnectAttempts, MaxReconnectAttempts)]
    {
      ws := None;
      if code == Unauthorized {
        events := events + [AuthError];
        return;
      }
      events := events + [Disconnected];
      ScheduleReconnect();
    }

    /** The armed timer fires: it is spent, and `connect` runs. */
    method TimerFires()
      requires timer.Some?
      modifies this
      ensures timer == None && ws == Some(Socket(false))
      ensures reconnectAttempts == old(reconnectAttempts) && events == old(events) && sent == old(sent)
    {
      timer := None;
      Connect();
    }

    /** `send`: written, and true, only while the socket is open. */
    method Send(message: string) returns (ok: bool)
      modifies this
      ensures ok <==> ws.Some? && ws.value.open
      ensures ok ==> sent == old(sent) + [message]
      ensures !ok ==> sent == old(sent)
      ensures ws == old(ws) && timer == old(timer) && events == old(events)
      ensures reconnectAttempts == old(reconnectAttempts)
    {
      if ws.Some? && ws.value.open {
        sent := sent + [message];
        return true;
      }
      return false;
    }

    /** `close`: a pending reconnect is cancelled and the socket dropped. */
    method Close()
      modifies this
      ensures timer == None && ws == None
      ensures reconnectAttempts == old(reconnectAttempts) && events == old(events) && sent == old(sent)
    {
      timer := None;
      ws := None;
    }

    /** `isConnected` */
    function IsConnected(): (r: bool)
      reads this
      ensures r <==> ws.Some? && ws.value.open
    {
      ws.Some? && ws.value.open
    }
  }

  /**
   * A server that never answers: every close is followed by the timer, ten
   * reconnects wait 1, 2, 4, ... 512 seconds, and the eleventh close gives up
   * without arming a timer.
   */
  method Backoff(code: int) returns (delays: seq<nat>, last: Event, armed: bool)
    requires code != Unauthorized
    ensures |delays| == MaxReconnectAttempts
    ensures forall n :: 0 <= n < |delays| ==> delays[n] == Delay(n)
    ensures last == MaxAttempts && !armed
  {
    var c := new Connection();
    delays := [];
    for n := 0 to MaxReconnectAttempts
      invariant c.reconnectAttempts == n && c.timer == None
      invariant |delays| == n && forall k :: 0 <= k < n ==> delays[k] == Delay(k)
    {
      c.OnClose(code);
      delays := delays + [c.timer.value];
      c.TimerFires();
    }
    c.OnClose(code);
    last := c.events[|c.events| - 1];
    armed := c.timer.Some?;
  }

  /** Once the server refused the password, no reconnect is ever armed. */
  method RefusedStaysClosed() returns (armed: bool, last: Event)
    ensures !armed && last == AuthError
  {
    var c := new Connection();
    c.OnClose(Unauthorized);
    armed := c.timer.Some?;
    last := c.events[|c.events| - 1];
  }

  /** An open after failed attempts restarts the backoff at one second. */
  method OpenResetsBackoff(code: int) returns (delay: nat)
    requires code != Unauthorized
    ensures delay == BaseReconnectDelay
  {
    var c := new Connection();
    c.OnClose(code);
    c.TimerFires();
    c.OnClose(code);
    c.TimerFires();
    c.OnOpen();
    c.OnClose(code);
    delay := c.timer.value;
  }
}

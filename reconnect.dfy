/** The relay's upstream connection lifecycle (`connectToBinance` and its
    `open`, `error` and `close` handlers) as an explicit state machine.

    There is always at most one upstream socket. An error makes the relay call
    `close()` on it; the `close` event schedules one new connection attempt
    after a fixed 5000 ms delay; the timer firing creates the new socket. The
    retry is unconditional: the delay never grows and there is no limit. */
module Reconnect {

  const ReconnectDelayMs: nat := 5000

  datatype State =
    | Connecting   // a socket exists and has not opened yet
    | Connected    // the socket is open and delivers messages
    | Closing      // `close()` has been called after an error
    | Waiting      // no socket; a reconnect timer is pending

  datatype Event = Opened | Errored | Closed | DelayElapsed

  /** What the relay does in reaction to an event. */
  datatype Effect =
    | InitLiveData                    // the open handler resets the live state
    | CloseSocket                     // the error handler calls `close()`
    | ScheduleReconnect(delayMs: nat) // the close handler calls `setTimeout`
    | OpenSocket                      // the timer runs `connectToBinance`
    | NoEffect                        // the event does not apply in this state

  /** A socket object exists (and has not yet reported `close`). */
  predicate SocketAlive(s: State)
  {
    !s.Waiting?
  }

  /** One transition. Events a socket cannot deliver in the current state
      (an `open` after `close`, a timer with no pending reconnect) change nothing. */
  function Step(s: State, e: Event): (r: (State, Effect))
    ensures r.1 == OpenSocket <==> s == Waiting && e == DelayElapsed
    ensures r.1.ScheduleReconnect? <==> SocketAlive(s) && e == Closed
    ensures r.1 == CloseSocket <==> SocketAlive(s) && e == Errored
    ensures r.1 == InitLiveData <==> s == Connecting && e == Opened
    ensures r.1.ScheduleReconnect? ==> r.1.delayMs == ReconnectDelayMs && r.0 == Waiting
    ensures r.1 == NoEffect ==> r.0 == s
    ensures !(r.1 == OpenSocket || r.1.ScheduleReconnect?) ==> SocketAlive(r.0) == SocketAlive(s)
  {
    match (s, e)
    case (Connecting, Opened) => (Connected, InitLiveData)
    case (Waiting, DelayElapsed) => (Connecting, OpenSocket)
    case (Waiting, _) => (s, NoEffect)
    case (_, Errored) => (Closing, CloseSocket)
    case (_, Closed) => (Waiting, ScheduleReconnect(ReconnectDelayMs))
    case (_, _) => (s, NoEffect)
  }

  /** The state after a sequence of events. */
  function After(s: State, es: seq<Event>): State
    decreases |es|
  {
    if |es| == 0 then s else After(Step(s, es[0]).0, es[1..])
  }

  /** The effects of a sequence of events, in order. */
  function Effects(s: State, es: seq<Event>): (fx: seq<Effect>)
    ensures |fx| == |es|
    decreases |es|
  {
    if |es| == 0 then [] else [Step(s, es[0]).1] + Effects(Step(s, es[0]).0, es[1..])
  }

  /** The socket-lifecycle effects of a run: reconnects scheduled and sockets opened. */
  function Lifecycle(fx: seq<Effect>): seq<Effect>
  {
    if |fx| == 0 then []
    else if fx[0] == OpenSocket || fx[0].ScheduleReconnect? then [fx[0]] + Lifecycle(fx[1..])
    else Lifecycle(fx[1..])
  }

  /** Scheduled reconnects and opened sockets strictly alternate, starting with
      an open when no socket exists and with a scheduled reconnect otherwise. */
  predicate Alternating(fx: seq<Effect>, waiting: bool)
    decreases |fx|
  {
    |fx| == 0 ||
    (fx[0] == (if waiting then OpenSocket else ScheduleReconnect(ReconnectDelayMs))
     && Alternating(fx[1..], !waiting))
  }

  /** Over any run, every new socket is preceded by exactly one scheduled
      reconnect, which in turn needed a `close` of the previous socket: two
      connection attempts never overlap, and each close schedules one retry. */
  lemma {:induction false} RunAlternates(s: State, es: seq<Event>)
    ensures Alternating(Lifecycle(Effects(s, es)), s == Waiting)
    decreases |es|
  {
    if |es| > 0 {
      var (s', f) := Step(s, es[0]);
      RunAlternates(s', es[1..]);
      var fx := Effects(s, es);
      assert fx == [f] + Effects(s', es[1..]);
      assert fx[1..] == Effects(s', es[1..]);
      if f == OpenSocket || f.ScheduleReconnect? {
        assert Lifecycle(fx) == [f] + Lifecycle(fx[1..]);
      } else {
        assert Lifecycle(fx) == Lifecycle(fx[1..]);
        assert (s' == Waiting) == (s == Waiting);
      }
    }
  }

  /** The state after a run agrees with the lifecycle effects: a socket is alive
      exactly when the last lifecycle effect opened one (or, with none, when one
      was alive at the start). */
  lemma {:induction false} RunEndsConsistently(s: State, es: seq<Event>)
    ensures var lc := Lifecycle(Effects(s, es));
            SocketAlive(After(s, es)) <==>
              (if |lc| == 0 then SocketAlive(s) else lc[|lc| - 1] == OpenSocket)
    decreases |es|
  {
    if |es| > 0 {
      var (s', f) := Step(s, es[0]);
      RunEndsConsistently(s', es[1..]);
      var fx := Effects(s, es);
      assert fx[1..] == Effects(s', es[1..]);
      if f == OpenSocket || f.ScheduleReconnect? {
        assert Lifecycle(fx) == [f] + Lifecycle(fx[1..]);
      } else {
        assert Lifecycle(fx) == Lifecycle(fx[1..]);
      }
    }
  }

  /** Error on a live connection: the socket is closed, its `close` event
      schedules one retry after 5000 ms, and the timer opens a new socket. */
  lemma ErrorThenRetry(s: State)
    requires s == Connected || s == Connecting
    ensures Effects(s, [Errored, Closed, DelayElapsed]) ==
              [CloseSocket, ScheduleReconnect(5000), OpenSocket]
    ensures After(s, [Errored, Closed, DelayElapsed]) == Connecting
  {
  }
}

/**
 The reconnecting websocket (website/src/reconnecting-websocket.ts): five variables changed by the
 handlers of sockets and of one timer. Sockets are numbered in the order they are created; `trace`
 records the callbacks and the calls of `stop`. A callback may call `stop` itself (`reenter`).
 */
module Reconnect {
  import opened Wrappers

  const INITIAL_DELAY := 1000
  const MAX_DELAY := 30000

  datatype Signal =
    | Connecting(socket: nat, attempt: nat)
    | Opened(socket: nat, reconnected: bool)
    | Received(socket: nat)
    | Failed(socket: nat)
    | Scheduled(socket: nat, attempt: nat, delay: nat)
    | Terminal(socket: nat)
    | Halted(socket: nat)                        // every socket before this number is given up

  datatype Machine = Machine(
    attempt: nat, delay: nat, timer: Option<nat>, socket: Option<nat>, stopped: bool, created: nat, trace: seq<Signal>)

  datatype Event =
    | Start(reenter: bool)
    | Stop
    | Open(socket: nat)
    | Message(socket: nat)
    | Error(socket: nat)
    | Close(socket: nat, code: nat, reason: string, reenter: bool)
    | TimerFires(reenter: bool)

  const FRESH := Machine(0, INITIAL_DELAY, None, None, true, 0, [])

  const REPLACED := "Replaced by a newer connection"

  predicate ShouldReconnect(code: nat, reason: string) { !(code == 1000 && reason == REPLACED) }

  function Emit(m: Machine, s: Signal): Machine { m.(trace := m.trace + [s]) }

  function StopAll(m: Machine): Machine {
    if m.stopped then m
    else
      var halted := m.(stopped := true, timer := None, socket := None, attempt := 0, delay := INITIAL_DELAY);
      Emit(halted, Halted(m.created))
  }

  function Connected(m: Machine, reenter: bool): Machine {
    if m.stopped || m.socket.Some? || m.timer.Some? then m
    else
      var asked := Emit(m, Connecting(m.created, m.attempt));
      var after := if reenter then StopAll(asked) else asked;
      after.(socket := Some(m.created), created := m.created + 1)
  }

  predicate Current(m: Machine, socket: nat) { !m.stopped && m.socket == Some(socket) }

  function Doubled(delay: nat): nat { if delay * 2 <= MAX_DELAY then delay * 2 else MAX_DELAY }

  function Closed(m: Machine, socket: nat, code: nat, reason: string, reenter: bool): Machine {
    if !ShouldReconnect(code, reason) then Emit(m.(socket := None), Terminal(socket))
    else
      var closed := m.(socket := None, delay := Doubled(m.delay), attempt := m.attempt + 1);
      var asked := Emit(closed, Scheduled(socket, m.attempt + 1, m.delay));
      (if reenter then StopAll(asked) else asked).(timer := Some(m.delay))
  }

  function After(m: Machine, e: Event): Machine {
    match e
    case Start(reenter) => if m.stopped then Connected(m.(stopped := false), reenter) else m
    case Stop => StopAll(m)
    case Open(k) =>
      if Current(m, k) then Emit(m.(attempt := 0, delay := INITIAL_DELAY), Opened(k, m.attempt > 0)) else m
    case Message(k) => if Current(m, k) then Emit(m, Received(k)) else m
    case Error(k) => if Current(m, k) then Emit(m, Failed(k)) else m
    case Close(k, code, reason, reenter) => if Current(m, k) then Closed(m, k, code, reason, reenter) else m
    case TimerFires(reenter) => if m.timer.Some? then Connected(m.(timer := None), reenter) else m
  }

  /** The closure's variables; every handler does what the machine does. */
  class ReconnectingWebSocket {
    var reconnectAttempt: nat
    var reconnectDelayMs: nat
    var reconnectTimer: Option<nat>
    var socket: Option<nat>
    var stopped: bool
    var created: nat
    ghost var trace: seq<Signal>

    ghost function Value(): Machine
      reads this
    {
      Machine(reconnectAttempt, reconnectDelayMs, reconnectTimer, socket, stopped, created, trace)
    }

    constructor ()
      ensures Value() == FRESH
    {
      reconnectAttempt, reconnectDelayMs, reconnectTimer, socket := 0, INITIAL_DELAY, None, None;
      stopped, created, trace := true, 0, [];
    }

    method Halt()
      modifies this
      ensures Value() == After(old(Value()), Event.Stop)
    {
      if stopped { return; }
      stopped := true;
      reconnectTimer := None;
      socket := None;
      reconnectAttempt := 0;
      reconnectDelayMs := INITIAL_DELAY;
      trace := trace + [Halted(created)];
    }

    method Connect(reenter: bool)
      modifies this
      ensures Value() == Connected(old(Value()), reenter)
    {
      if stopped || socket.Some? || reconnectTimer.Some? { return; }
      trace := trace + [Connecting(created, reconnectAttempt)];
      if reenter { Halt(); }
      socket := Some(created);
      created := created + 1;
    }

    method Begin(reenter: bool)
      modifies this
      ensures Value() == After(old(Value()), Event.Start(reenter))
    {
      if !stopped { return; }
      stopped := false;
      Connect(reenter);
    }

    method OnOpen(from: nat)
      modifies this
      ensures Value() == After(old(Value()), Event.Open(from))
    {
      if stopped || socket != Some(from) { return; }
      trace := trace + [Opened(from, reconnectAttempt > 0)];
      reconnectAttempt := 0;
      reconnectDelayMs := INITIAL_DELAY;
    }

    method OnClose(from: nat, code: nat, reason: string, reenter: bool)
      modifies this
      ensures Value() == After(old(Value()), Event.Close(from, code, reason, reenter))
    {
      if stopped || socket != Some(from) { return; }
      socket := None;
      if !ShouldReconnect(code, reason) {
        trace := trace + [Terminal(from)];
        return;
      }
      var delayMs := reconnectDelayMs;
      reconnectDelayMs := if reconnectDelayMs * 2 <= MAX_DELAY then reconnectDelayMs * 2 else MAX_DELAY;
      reconnectAttempt := reconnectAttempt + 1;
      trace := trace + [Scheduled(from, reconnectAttempt, delayMs)];
      if reenter { Halt(); }
      reconnectTimer := Some(delayMs);
    }

    method OnTimer(reenter: bool)
      modifies this
      ensures Value() == After(old(Value()), Event.TimerFires(reenter))
    {
      if reconnectTimer.Some? {
        reconnectTimer := None;
        Connect(reenter);
      }
    }
  }

  // ----- The invariant -----

  function Pow2(n: nat): nat { if n == 0 then 1 else 2 * Pow2(n - 1) }

  function Backoff(attempt: nat): nat {
    if INITIAL_DELAY * Pow2(attempt) <= MAX_DELAY then INITIAL_DELAY * Pow2(attempt) else MAX_DELAY
  }

  lemma {:induction false} BackoffDoubles(attempt: nat)
    ensures Backoff(attempt + 1) == Doubled(Backoff(attempt))
  {
  }

  /** Reconnections scheduled since the last opened connection or stop. */
  function Retries(trace: seq<Signal>): nat {
    if trace == [] then 0
    else match trace[|trace| - 1]
      case Opened(_, _) => 0
      case Halted(_) => 0
      case Scheduled(_, _, _) => Retries(trace[..|trace| - 1]) + 1
      case _ => Retries(trace[..|trace| - 1])
  }

  /** At most one of socket and timer, neither when stopped, and the delay that belongs to the attempt. */
  ghost predicate Inv(m: Machine) {
    && !(m.socket.Some? && m.timer.Some?)
    && (m.stopped ==> m.socket.None? && m.timer.None? && m.attempt == 0)
    && m.delay == Backoff(m.attempt)
    && (m.timer.Some? ==> m.attempt > 0 && m.timer.value == Backoff(m.attempt - 1))
    && (m.socket.Some? ==> m.created > 0 && m.socket.value == m.created - 1)
  }

  /** A callback that calls `stop` while a connection or a timer is about to be stored. */
  predicate Hazard(m: Machine, e: Event) {
    match e
    case Start(reenter) => reenter && m.stopped
    case TimerFires(reenter) => reenter && m.timer.Some?
    case Close(k, code, reason, reenter) =>
      reenter && Current(m, k) && !(code == 1000 && reason == "Replaced by a newer connection")
    case _ => false
  }

  /** Exactly the callbacks that stop the machine from inside break the invariant. */
  lemma {:induction false} InvExactly(m: Machine, e: Event)
    requires Inv(m)
    ensures Inv(After(m, e)) <==> !Hazard(m, e)
  {
    BackoffDoubles(m.attempt);
    assert Pow2(0) == 1;
  }

  function RunAll(m: Machine, events: seq<Event>): Machine {
    if events == [] then m else After(RunAll(m, events[..|events| - 1]), events[|events| - 1])
  }

  ghost predicate Calm(m: Machine, events: seq<Event>) {
    forall i :: 0 <= i < |events| ==> !Hazard(RunAll(m, events[..i]), events[i])
  }

  lemma {:induction false} CalmPrefix(m: Machine, events: seq<Event>)
    requires events != [] && Calm(m, events)
    ensures Calm(m, events[..|events| - 1]) && !Hazard(RunAll(m, events[..|events| - 1]), events[|events| - 1])
  {
    var init := events[..|events| - 1];
    forall i | 0 <= i < |init| ensures !Hazard(RunAll(m, init[..i]), init[i]) {
      assert init[..i] == events[..i];
    }
  }

  /** In every run without such callbacks the invariant holds. */
  lemma {:induction false} RunInv(events: seq<Event>)
    requires Calm(FRESH, events)
    ensures Inv(RunAll(FRESH, events))
  {
    if events == [] {
      assert Pow2(0) == 1;
    } else {
      CalmPrefix(FRESH, events);
      RunInv(events[..|events| - 1]);
      InvExactly(RunAll(FRESH, events[..|events| - 1]), events[|events| - 1]);
    }
  }

  /** A run with such a callback can leave a timer behind in a stopped machine. */
  lemma {:induction false} StoppedWithTimer() returns (events: seq<Event>)
    ensures RunAll(FRESH, events).stopped && RunAll(FRESH, events).timer.Some?
  {
    var started := [Start(false)];
    events := started + [Close(0, 1006, "", true)];
    assert started[..0] == [] && events[..1] == started;
  }

  // ----- What the callbacks see -----

  ghost predicate EndsSocket(s: Signal) { s.Scheduled? || s.Terminal? }

  /**
   Signals come from ever newer sockets: nothing comes from a socket older than one already heard of,
   nothing from a socket after it was closed, and nothing after a stop from a socket created before it.
   */
  ghost predicate Orderly(trace: seq<Signal>) {
    forall i, j :: 0 <= i < j < |trace| ==>
      trace[i].socket <= trace[j].socket && (EndsSocket(trace[i]) ==> trace[i].socket < trace[j].socket)
  }

  /** After r retries: a connection is attempt r, it opens as a reconnection if r > 0, and a delay backs off r times. */
  ghost predicate Counted(s: Signal, r: nat) {
    match s
    case Connecting(_, attempt) => attempt == r
    case Opened(_, reconnected) => reconnected == (r > 0)
    case Scheduled(_, attempt, delay) =>
      attempt == r + 1 && delay == if 1000 * Pow2(r) <= 30000 then 1000 * Pow2(r) else 30000
    case _ => true
  }

  /** Every signal fits the number of retries before it. */
  ghost predicate DelaysOk(trace: seq<Signal>) {
    forall i :: 0 <= i < |trace| ==> Counted(trace[i], Retries(trace[..i]))
  }

  ghost predicate Heard(m: Machine) {
    && Orderly(m.trace)
    && (forall i :: 0 <= i < |m.trace| ==>
          m.trace[i].socket <= m.created && (!m.trace[i].Halted? ==> m.trace[i].socket < m.created)
          && (m.socket.Some? ==>
                && m.trace[i].socket <= m.socket.value
                && !(EndsSocket(m.trace[i]) && m.trace[i].socket == m.socket.value)))
  }

  lemma {:induction false} EmitDelays(trace: seq<Signal>, s: Signal)
    requires DelaysOk(trace)
    requires Counted(s, Retries(trace))
    ensures DelaysOk(trace + [s])
    ensures Retries(trace + [s]) ==
      if s.Opened? || s.Halted? then 0 else if s.Scheduled? then Retries(trace) + 1 else Retries(trace)
  {
    assert (trace + [s])[..|trace|] == trace;
    forall i | 0 <= i < |trace| + 1 ensures Counted((trace + [s])[i], Retries((trace + [s])[..i])) {
      assert i < |trace| ==> (trace + [s])[..i] == trace[..i];
    }
  }

  /** The signal an event gives, if any. */
  function SignalOf(m: Machine, e: Event): Option<Signal> {
    match e
    case Start(_) => if m.stopped then Some(Connecting(m.created, m.attempt)) else None
    case Stop => if m.stopped then None else Some(Halted(m.created))
    case Open(k) => if Current(m, k) then Some(Opened(k, m.attempt > 0)) else None
    case Message(k) => if Current(m, k) then Some(Received(k)) else None
    case Error(k) => if Current(m, k) then Some(Failed(k)) else None
    case Close(k, code, reason, _) =>
      if !Current(m, k) then None
      else if code == 1000 && reason == "Replaced by a newer connection" then Some(Terminal(k))
      else Some(Scheduled(k, m.attempt + 1, m.delay))
    case TimerFires(_) => if m.timer.Some? then Some(Connecting(m.created, m.attempt)) else None
  }

  /** Every event is answered by at most one signal, the one that belongs to it. */
  lemma {:induction false} OneSignal(m: Machine, e: Event)
    requires Inv(m) && !Hazard(m, e)
    ensures After(m, e).trace == if SignalOf(m, e).Some? then m.trace + [SignalOf(m, e).value] else m.trace
  {
  }

  lemma {:induction false} OrderlySnoc(trace: seq<Signal>, s: Signal)
    requires Orderly(trace)
    requires forall i :: 0 <= i < |trace| ==>
      trace[i].socket <= s.socket && (EndsSocket(trace[i]) ==> trace[i].socket < s.socket)
    ensures Orderly(trace + [s])
  {
  }

  lemma {:induction false} HeardStep(m: Machine, e: Event)
    requires Inv(m) && Heard(m) && !Hazard(m, e)
    ensures Heard(After(m, e))
  {
    OneSignal(m, e);
    if SignalOf(m, e).Some? {
      OrderlySnoc(m.trace, SignalOf(m, e).value);
    }
  }

  /** The attempt counter and the scheduled delays follow the signals. */
  lemma {:induction false} AttemptStep(m: Machine, e: Event)
    requires Inv(m) && !Hazard(m, e)
    ensures match SignalOf(m, e)
      case None => After(m, e).attempt == m.attempt
      case Some(s) =>
        && After(m, e).attempt ==
             (if s.Opened? || s.Halted? then 0 else if s.Scheduled? then m.attempt + 1 else m.attempt)
        && Counted(s, m.attempt)
  {
  }

  lemma {:induction false} DelaysStep(m: Machine, e: Event)
    requires Inv(m) && DelaysOk(m.trace) && m.attempt == Retries(m.trace) && !Hazard(m, e)
    ensures DelaysOk(After(m, e).trace) && After(m, e).attempt == Retries(After(m, e).trace)
  {
    OneSignal(m, e);
    AttemptStep(m, e);
    if SignalOf(m, e).Some? {
      EmitDelays(m.trace, SignalOf(m, e).value);
    }
  }

  /**
   In every run without such callbacks, stale sockets are never heard of again and every reconnection
   is scheduled with min(1000 * 2^r, 30000) milliseconds after r retries.
   */
  lemma {:induction false} RunSignals(events: seq<Event>)
    requires Calm(FRESH, events)
    ensures var m := RunAll(FRESH, events);
      Heard(m) && DelaysOk(m.trace) && m.attempt == Retries(m.trace)
  {
    if events != [] {
      var init := events[..|events| - 1];
      CalmPrefix(FRESH, events);
      RunSignals(init);
      RunInv(init);
      HeardStep(RunAll(FRESH, init), events[|events| - 1]);
      DelaysStep(RunAll(FRESH, init), events[|events| - 1]);
    }
  }

  // ----- The state, read off the signals -----

  /**
   The last signal tells the state: stopped before the first connection and after a stop; a timer for
   the announced delay after a schedule; neither timer nor socket after a terminal close; else the
   socket it came from.
   */
  ghost predicate Told(m: Machine) {
    if m.trace == [] then m.stopped && m.timer == None && m.socket == None
    else match m.trace[|m.trace| - 1]
      case Halted(_) => m.stopped && m.timer == None && m.socket == None
      case Scheduled(_, _, delay) => !m.stopped && m.timer == Some(delay) && m.socket == None
      case Terminal(_) => !m.stopped && m.timer == None && m.socket == None
      case s => !m.stopped && m.timer == None && m.socket == Some(s.socket)
  }

  lemma {:induction false} ToldStep(m: Machine, e: Event)
    requires Inv(m) && Told(m) && !Hazard(m, e)
    ensures Told(After(m, e))
  {
  }

  /** In every run without such callbacks the connection is up, on its way or given up as the signals say. */
  lemma {:induction false} StateFollowsSignals(events: seq<Event>)
    requires Calm(FRESH, events)
    ensures Told(RunAll(FRESH, events))
  {
    if events != [] {
      var init := events[..|events| - 1];
      CalmPrefix(FRESH, events);
      StateFollowsSignals(init);
      RunInv(init);
      ToldStep(RunAll(FRESH, init), events[|events| - 1]);
    }
  }
}

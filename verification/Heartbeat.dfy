/**
 Heartbeats: two counters run down once per tick; a send refills one of them, a
 receipt the other.
 */
module Heartbeat {

  /** The counters are 64-bit unsigned and wrap below zero. */
  const WRAP := 0x1_0000_0000_0000_0000

  type Seconds = t: nat | t < 0x1_0000

  function Decrement(x: nat): nat {
    if x == 0 then WRAP - 1 else x - 1
  }

  datatype Counters = Counters(
    ticksUntilHeartBeat: nat,
    totalTicksUntilHeartBeat: nat,
    ticksUntilDisconnect: nat,
    totalTicksUntilDisconnect: nat)

  datatype Event = Tick | MessageSent | MessageReceived | HeartbeatReceived

  datatype Output = Output(heartbeat: bool, kill: bool)

  const NOTHING := Output(false, false)

  class HeartbeatManager {
    var timeoutSeconds: Seconds
    var ticksUntilHeartBeat: nat
    var totalTicksUntilHeartBeat: nat
    var ticksUntilDisconnect: nat
    var totalTicksUntilDisconnect: nat

    function View(): Counters
      reads this
    {
      Counters(ticksUntilHeartBeat, totalTicksUntilHeartBeat, ticksUntilDisconnect, totalTicksUntilDisconnect)
    }

    constructor (timeout: Seconds)
      ensures timeoutSeconds == timeout && View() == Start(timeout)
    {
      timeoutSeconds := timeout;
      totalTicksUntilDisconnect := timeout * 2 + 1;
      ticksUntilDisconnect := timeout * 2 + 1;
      totalTicksUntilHeartBeat := timeout / 2;
      ticksUntilHeartBeat := timeout / 2;
    }

    method ProcessTick() returns (out: Output)
      modifies this
      ensures (View(), out) == Step(timeoutSeconds, old(View()), Tick) && timeoutSeconds == old(timeoutSeconds)
    {
      ticksUntilHeartBeat := Decrement(ticksUntilHeartBeat);
      ticksUntilDisconnect := Decrement(ticksUntilDisconnect);
      out := NOTHING;
      if ticksUntilHeartBeat == 0 {
        out := out.(heartbeat := true);
        ticksUntilHeartBeat := totalTicksUntilHeartBeat;
      }
      if ticksUntilDisconnect == 0 {
        out := out.(kill := true);
        ticksUntilDisconnect := totalTicksUntilDisconnect;
      }
    }

    method NotifyMessageSent()
      modifies this
      ensures View() == Step(timeoutSeconds, old(View()), MessageSent).0 && timeoutSeconds == old(timeoutSeconds)
    {
      ticksUntilHeartBeat := totalTicksUntilHeartBeat;
    }

    method NotifyMessageReceived()
      modifies this
      ensures View() == Step(timeoutSeconds, old(View()), MessageReceived).0 && timeoutSeconds == old(timeoutSeconds)
    {
      ticksUntilDisconnect := totalTicksUntilDisconnect;
    }

    method NotifyHeartbeatReceived()
      modifies this
      ensures View() == Step(timeoutSeconds, old(View()), HeartbeatReceived).0 && timeoutSeconds == old(timeoutSeconds)
    {
      totalTicksUntilDisconnect := timeoutSeconds + 1;
      ticksUntilDisconnect := totalTicksUntilDisconnect;
    }
  }

  function Start(timeout: Seconds): Counters {
    Counters(timeout / 2, timeout / 2, timeout * 2 + 1, timeout * 2 + 1)
  }

  function Step(timeout: Seconds, c: Counters, e: Event): (Counters, Output) {
    match e
    case MessageSent => (c.(ticksUntilHeartBeat := c.totalTicksUntilHeartBeat), NOTHING)
    case MessageReceived => (c.(ticksUntilDisconnect := c.totalTicksUntilDisconnect), NOTHING)
    case HeartbeatReceived =>
      (c.(totalTicksUntilDisconnect := timeout + 1, ticksUntilDisconnect := timeout + 1), NOTHING)
    case Tick =>
      var h, d := Decrement(c.ticksUntilHeartBeat), Decrement(c.ticksUntilDisconnect);
      (c.(ticksUntilHeartBeat := if h == 0 then c.totalTicksUntilHeartBeat else h,
          ticksUntilDisconnect := if d == 0 then c.totalTicksUntilDisconnect else d),
       Output(h == 0, d == 0))
  }

  function Run(timeout: Seconds, es: seq<Event>): Counters {
    if es == [] then Start(timeout) else Step(timeout, Run(timeout, es[..|es| - 1]), es[|es| - 1]).0
  }

  /** What the last event of a run made the manager do. */
  function Out(timeout: Seconds, es: seq<Event>): Output
    requires es != []
  {
    Step(timeout, Run(timeout, es[..|es| - 1]), es[|es| - 1]).1
  }

  // ---- A reference which counts up from the last receipt ----

  predicate SeenHeartbeat(es: seq<Event>) {
    HeartbeatReceived in es
  }

  /** How many silent ticks the connection may have. */
  function Limit(timeout: Seconds, es: seq<Event>): nat {
    if SeenHeartbeat(es) then timeout + 1 else 2 * timeout + 1
  }

  /** Ticks since anything was received or the manager was started, counted from zero
      again when they reach the limit. */
  function Silence(timeout: Seconds, es: seq<Event>): nat {
    if es == [] then 0
    else
      var before := Silence(timeout, es[..|es| - 1]);
      match es[|es| - 1]
      case Tick => if before + 1 == Limit(timeout, es) then 0 else before + 1
      case MessageSent => before
      case _ => 0
  }

  lemma {:induction false} CountersMeanSilence(timeout: Seconds, es: seq<Event>)
    ensures var c := Run(timeout, es);
      && c.totalTicksUntilDisconnect == Limit(timeout, es)
      && c.ticksUntilDisconnect == Limit(timeout, es) - Silence(timeout, es)
      && Silence(timeout, es) < Limit(timeout, es)
  {
    if es != [] {
      var n := |es| - 1;
      assert es == es[..n] + [es[n]];
      CountersMeanSilence(timeout, es[..n]);
    }
  }

  /** The connection is killed at exactly those ticks at which the silence reaches
      2T + 1 ticks before the first heartbeat was received and T + 1 after it. */
  lemma KilledExactlyAtLimit(timeout: Seconds, es: seq<Event>)
    requires es != []
    ensures Out(timeout, es).kill <==>
      es[|es| - 1] == Tick && Silence(timeout, es[..|es| - 1]) + 1 == Limit(timeout, es)
  {
    var n := |es| - 1;
    assert es == es[..n] + [es[n]];
    CountersMeanSilence(timeout, es[..n]);
  }

  // ---- Heartbeats are sent often enough ----

  /** Something is sent at event `i`: a message, or a heartbeat at a tick. */
  predicate SendsAt(timeout: Seconds, es: seq<Event>, i: nat)
    requires i < |es|
  {
    es[i] == MessageSent || Out(timeout, es[..i + 1]).heartbeat
  }

  function Ticks(es: seq<Event>): nat {
    if es == [] then 0 else Ticks(es[..|es| - 1]) + if es[|es| - 1] == Tick then 1 else 0
  }

  lemma {:induction false} HeartbeatCounterInRange(timeout: Seconds, es: seq<Event>)
    requires timeout >= 2
    ensures Run(timeout, es).totalTicksUntilHeartBeat == timeout / 2
    ensures 1 <= Run(timeout, es).ticksUntilHeartBeat <= timeout / 2
  {
    if es != [] {
      HeartbeatCounterInRange(timeout, es[..|es| - 1]);
    }
  }

  lemma {:induction false} SilentWindowRunsDown(timeout: Seconds, es: seq<Event>, i: nat)
    requires timeout >= 2 && i <= |es|
    requires forall k | i <= k < |es| :: !SendsAt(timeout, es, k)
    ensures Run(timeout, es).ticksUntilHeartBeat + Ticks(es[i..]) == Run(timeout, es[..i]).ticksUntilHeartBeat
    decreases |es|
  {
    var n := |es| - 1;
    if i == |es| {
      assert es[..i] == es && es[i..] == [];
    } else {
      forall k | i <= k < n ensures !SendsAt(timeout, es[..n], k) {
        assert !SendsAt(timeout, es, k);
        SendsAtPrefix(timeout, es, n, k);
      }
      SilentWindowRunsDown(timeout, es[..n], i);
      assert es[..n][..i] == es[..i];
      assert es[i..][..|es[i..]| - 1] == es[..n][i..];
      assert !SendsAt(timeout, es, n);
      SilentStep(timeout, es);
    }
  }

  lemma SendsAtPrefix(timeout: Seconds, es: seq<Event>, n: nat, k: nat)
    requires k < n <= |es|
    ensures SendsAt(timeout, es[..n], k) <==> SendsAt(timeout, es, k)
  {
    assert es[..n][..k + 1] == es[..k + 1] && es[..n][k] == es[k];
  }

  /** An event at which nothing is sent counts down exactly when it is a tick. */
  lemma SilentStep(timeout: Seconds, es: seq<Event>)
    requires timeout >= 2 && es != [] && !SendsAt(timeout, es, |es| - 1)
    ensures Run(timeout, es).ticksUntilHeartBeat + (if es[|es| - 1] == Tick then 1 else 0)
         == Run(timeout, es[..|es| - 1]).ticksUntilHeartBeat
  {
    assert es[..|es|] == es;
    HeartbeatCounterInRange(timeout, es[..|es| - 1]);
  }

  /** Every window of T/2 consecutive ticks contains a send. */
  lemma EveryWindowSends(timeout: Seconds, es: seq<Event>, i: nat, j: nat)
    requires timeout >= 2 && i <= j <= |es| && Ticks(es[i..j]) >= timeout / 2
    ensures exists k :: i <= k < j && SendsAt(timeout, es, k)
  {
    if forall k | i <= k < j :: !SendsAt(timeout, es, k) {
      var window := es[..j];
      forall k | i <= k < j ensures !SendsAt(timeout, window, k) {
        assert !SendsAt(timeout, es, k);
        SendsAtPrefix(timeout, es, j, k);
      }
      SilentWindowRunsDown(timeout, window, i);
      assert window[i..] == es[i..j];
      HeartbeatCounterInRange(timeout, window);
      HeartbeatCounterInRange(timeout, window[..i]);
    }
  }

  /** Ticks since anything was sent or the manager was started, counted from zero again
      when they reach T/2. */
  function Unsent(timeout: Seconds, es: seq<Event>): nat {
    if es == [] then 0
    else
      var before := Unsent(timeout, es[..|es| - 1]);
      match es[|es| - 1]
      case Tick => if before + 1 == timeout / 2 then 0 else before + 1
      case MessageSent => 0
      case _ => before
  }

  lemma {:induction false} CounterMeansUnsent(timeout: Seconds, es: seq<Event>)
    requires timeout >= 2
    ensures Run(timeout, es).totalTicksUntilHeartBeat == timeout / 2
    ensures Run(timeout, es).ticksUntilHeartBeat == timeout / 2 - Unsent(timeout, es)
    ensures Unsent(timeout, es) < timeout / 2
  {
    if es != [] {
      CounterMeansUnsent(timeout, es[..|es| - 1]);
    }
  }

  /** A heartbeat goes out at exactly those ticks at which nothing was sent for T/2
      ticks. */
  lemma HeartbeatExactly(timeout: Seconds, es: seq<Event>)
    requires timeout >= 2 && es != []
    ensures Out(timeout, es).heartbeat <==>
      es[|es| - 1] == Tick && Unsent(timeout, es[..|es| - 1]) + 1 == timeout / 2
  {
    CounterMeansUnsent(timeout, es[..|es| - 1]);
  }

  /** With a timeout below 2 seconds no heartbeat is sent in any run of fewer than
      2^64 events: the counter starts at zero and wraps. */
  lemma {:induction false} NoHeartbeatBelowTwo(timeout: Seconds, es: seq<Event>)
    requires timeout < 2 && |es| < WRAP
    ensures Run(timeout, es).totalTicksUntilHeartBeat == 0
    ensures var h := Run(timeout, es).ticksUntilHeartBeat; h == 0 || h >= WRAP - |es|
    ensures es != [] ==> !Out(timeout, es).heartbeat
  {
    if es != [] {
      NoHeartbeatBelowTwo(timeout, es[..|es| - 1]);
    }
  }
}

/**
 * The one-shot success signal: a count-down latch created with count 1,
 * counted down by the alert handler when the executed scripts raise the
 * sentinel alert, and awaited by the test. Its two states are PENDING
 * (count 1) and FIRED (count 0).
 */
module Signal {
  /** The alert text the generated `Main` raises when it ran correctly. */
  const Sentinel: string := "test log alert"

  datatype LatchState = Pending | Fired

  /** The latch's count in each state. */
  function Count(s: LatchState): nat
  {
    if s.Pending? then 1 else 0
  }

  /** The latch after a `countDown()`. */
  function CountedDown(s: LatchState): (s': LatchState)
    ensures Count(s') == if Count(s) == 0 then 0 else Count(s) - 1
  {
    Fired
  }

  /** The latch after the alert handler saw one alert: only the exact sentinel counts it down. */
  function OnAlert(s: LatchState, message: string): (s': LatchState)
    ensures message == Sentinel ==> Count(s') == 0
    ensures message != Sentinel ==> s' == s
  {
    if message == Sentinel then CountedDown(s) else s
  }

  /** The latch after the handler saw `alerts`, in the order the engine raised them. */
  function AfterAlerts(s: LatchState, alerts: seq<string>): LatchState
  {
    if alerts == [] then s else OnAlert(AfterAlerts(s, alerts[..|alerts| - 1]), alerts[|alerts| - 1])
  }

  /** Once fired, the latch stays fired whatever alerts follow. */
  lemma {:induction false} FiredIsFinal(alerts: seq<string>)
    ensures AfterAlerts(Fired, alerts) == Fired
    decreases |alerts|
  {
    if alerts != [] {
      FiredIsFinal(alerts[..|alerts| - 1]);
    }
  }

  /** Alerts other than the sentinel leave the latch as it was. */
  lemma {:induction false} OtherAlertsIgnored(s: LatchState, alerts: seq<string>)
    requires forall i :: 0 <= i < |alerts| ==> alerts[i] != Sentinel
    ensures AfterAlerts(s, alerts) == s
    decreases |alerts|
  {
    if alerts != [] {
      OtherAlertsIgnored(s, alerts[..|alerts| - 1]);
    }
  }

  /** A fresh latch ends FIRED exactly when some alert equals the sentinel. */
  lemma {:induction false} FiresIffSentinelSeen(alerts: seq<string>)
    ensures AfterAlerts(Pending, alerts) == Fired <==> Sentinel in alerts
    decreases |alerts|
  {
    if alerts != [] {
      var init, last := alerts[..|alerts| - 1], alerts[|alerts| - 1];
      assert alerts == init + [last];
      FiresIffSentinelSeen(init);
    }
  }

  /** `java.util.concurrent.CountDownLatch` created with count 1, seen through its two states. */
  class CountDownLatch {
    var state: LatchState

    constructor ()
      ensures state == Pending && Count(state) == 1
    {
      state := Pending;
    }

    method CountDown()
      modifies this
      ensures state == CountedDown(old(state))
    {
      state := Fired;
    }

    /**
     * `await(10, SECONDS)`: true when the count has reached zero. The bounded
     * wait itself is not modelled; the answer depends on the state alone.
     */
    method Await() returns (reached: bool)
      ensures reached <==> Count(state) == 0
    {
      reached := state.Fired?;
    }
  }

  /** The browser's alert handler: counts the latch down on the sentinel, otherwise only logs. */
  class AlertHandler {
    const latch: CountDownLatch

    constructor (latch: CountDownLatch)
      ensures this.latch == latch
    {
      this.latch := latch;
    }

    method HandleAlert(message: string)
      modifies latch
      ensures latch.state == OnAlert(old(latch.state), message)
    {
      if message == Sentinel {
        latch.CountDown();
      }
    }
  }
}

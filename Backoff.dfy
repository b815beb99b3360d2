/**
 * The reconnect schedule shared by the socket and WebSocket clients: start at
 * 2 s, multiply by 1.5 after every wait, never exceed 30 s, return to 2 s on a
 * successful connection.  All values are dyadic rationals, so exact reals
 * agree with the Python floats.
 */
module Backoff {
  import opened Json

  const RECONNECT_DELAY_INITIAL: real := 2.0
  const RECONNECT_DELAY_MAX: real := 30.0
  const RECONNECT_BACKOFF_FACTOR: real := 1.5

  /** `min(retry_interval * 1.5, 30)`, the update after each reconnect wait. */
  function Grow(interval: real): real
  {
    if interval * RECONNECT_BACKOFF_FACTOR < RECONNECT_DELAY_MAX
    then interval * RECONNECT_BACKOFF_FACTOR
    else RECONNECT_DELAY_MAX
  }

  predicate InRange(interval: real)
  {
    RECONNECT_DELAY_INITIAL <= interval <= RECONNECT_DELAY_MAX
  }

  /** Growing keeps the interval within [2, 30]. */
  lemma GrowInRange(interval: real)
    requires InRange(interval)
    ensures InRange(Grow(interval))
    ensures Grow(interval) >= interval
  {
  }

  function Pow(base: real, n: nat): real
  {
    if n == 0 then 1.0 else base * Pow(base, n - 1)
  }

  /** Closed form of the schedule: the interval after `n` growths is min(2 * 1.5^n, 30). */
  function Schedule(n: nat): real
  {
    if 2.0 * Pow(1.5, n) < RECONNECT_DELAY_MAX then 2.0 * Pow(1.5, n) else RECONNECT_DELAY_MAX
  }

  /** The interval after `n` growths from the initial value, as the loop computes it. */
  function Iterated(n: nat): real
  {
    if n == 0 then RECONNECT_DELAY_INITIAL else Grow(Iterated(n - 1))
  }

  lemma {:induction false} PowAtLeastOne(n: nat)
    ensures Pow(1.5, n) >= 1.0
  {
    if n > 0 {
      PowAtLeastOne(n - 1);
    }
  }

  lemma {:induction false} PowMonotone(m: nat, n: nat)
    requires m <= n
    ensures Pow(1.5, m) <= Pow(1.5, n)
  {
    if m < n {
      PowMonotone(m, n - 1);
      PowAtLeastOne(n - 1);
    }
  }

  /** Repeated growth from 2 s follows the closed form. */
  lemma {:induction false} IteratedIsSchedule(n: nat)
    ensures Iterated(n) == Schedule(n)
  {
    if n > 0 {
      IteratedIsSchedule(n - 1);
      var p := Pow(1.5, n - 1);
      assert Pow(1.5, n) == 1.5 * p;
      PowAtLeastOne(n - 1);
    }
  }

  /** Every interval of the schedule lies in [2, 30]. */
  lemma ScheduleInRange(n: nat)
    ensures InRange(Schedule(n))
  {
    PowAtLeastOne(n);
  }

  /** The cap is reached exactly from the seventh growth on: 2 * 1.5^6 = 22.78125, 2 * 1.5^7 > 30. */
  lemma ScheduleCapped(n: nat)
    ensures Schedule(n) == RECONNECT_DELAY_MAX <==> n >= 7
  {
    assert Pow(1.5, 6) == 11.390625 by {
      assert Pow(1.5, 2) == 2.25;
      assert Pow(1.5, 4) == 1.5 * (1.5 * 2.25);
    }
    assert Pow(1.5, 7) == 1.5 * 11.390625;
    if n >= 7 {
      PowMonotone(7, n);
    } else {
      PowMonotone(n, 6);
    }
  }

  /** Growth is the successor step of the schedule. */
  lemma GrowSchedule(n: nat)
    ensures Grow(Schedule(n)) == Schedule(n + 1)
  {
    IteratedIsSchedule(n);
    IteratedIsSchedule(n + 1);
  }

  /**
   * The WebSocket client waits `int(retry_interval * 100)` slices of 0.01 s:
   * never longer than the interval, and less than one slice shorter.
   */
  function WaitSlices(interval: real): (slices: int)
    ensures interval >= 0.0 ==> slices >= 0 && slices as real * 0.01 <= interval < (slices + 1) as real * 0.01
    ensures interval < 0.0 ==> slices <= 0
  {
    Trunc(interval * 100.0)
  }
}

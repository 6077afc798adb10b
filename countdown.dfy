/**
 * The countdown shown while the response window is open (src/App.js lines 89
 * and 92-100): it starts at ten seconds and each one-second tick applies the
 * updater below to the previous value.
 */
module Countdown {

  /** `setTimer(10)` when the window opens. */
  const WindowSeconds: int := 10

  function Max(a: int, b: int): int {
    if a < b then b else a
  }

  /** The `setTimer` updater: down by one second, never below zero. */
  function Tick(prev: int): (r: int)
    ensures r >= 0
    ensures r == Max(prev - 1, 0)
  {
    if prev <= 1 then 0 else prev - 1
  }

  /** The updater yields 0 exactly when the previous value is at most 1, the case in which it also clears its interval. */
  lemma TickStopsAtZero(prev: int)
    ensures prev <= 1 <==> Tick(prev) == 0
  {
  }

  /** The timer after `n` ticks from `t`. */
  function Ticks(t: int, n: nat): int
    decreases n
  {
    if n == 0 then t else Ticks(Tick(t), n - 1)
  }

  /** From a non-negative start, `n` ticks subtract `n` seconds, saturating at 0. */
  lemma {:induction false} TicksSaturate(t: int, n: nat)
    requires t >= 0
    ensures Ticks(t, n) == Max(t - n, 0)
    decreases n
  {
    if n > 0 {
      TicksSaturate(Tick(t), n - 1);
    }
  }

  /** From ten seconds the timer is positive for the first nine ticks, 0 after the tenth, and then stays 0. */
  lemma CountdownFromWindow(n: nat)
    ensures n < 10 ==> Ticks(WindowSeconds, n) == WindowSeconds - n
    ensures Ticks(WindowSeconds, n) == 0 <==> n >= 10
  {
    TicksSaturate(WindowSeconds, n);
  }
}

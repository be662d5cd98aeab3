/**
 * The free helpers of the rp2040 firmware (src/main.cpp): the
 * watchdog-friendly delay, the LED blink pattern and `clamp`.
 *
 * `delay(d)` is modelled as taking `d` ms plus a non-negative lag supplied
 * by the caller (`lag(k)` for the k-th call), so the time measured with
 * `millis()` can exceed the time asked for.
 */
module RpMain {
  import opened RpConfig
  import opened Ints

  /** Longest single delay between two resets of the internal watchdog. */
  const WatchdogChunk: nat := 1000

  function Sum(s: seq<nat>): nat
  {
    if s == [] then 0 else Sum(s[..|s| - 1]) + s[|s| - 1]
  }

  /** Number of full chunks among the delays, each followed by a watchdog reset. */
  function FullChunks(s: seq<nat>): nat
  {
    if s == [] then 0 else FullChunks(s[..|s| - 1]) + (if s[|s| - 1] == WatchdogChunk then 1 else 0)
  }

  /**
   * `delayWdt(ms)`.  Returns the delays issued, the number of resets of
   * the internal watchdog and the elapsed time at exit; with the internal
   * watchdog on, it is reset after each delay of a full chunk.
   */
  method DelayWdt(ms: uint32, useInternalWatchdog: bool, lag: nat -> nat) returns (delays: seq<nat>, resets: nat, elapsed: nat)
    ensures !useInternalWatchdog ==> delays == [ms] && resets == 0
    ensures useInternalWatchdog ==> resets == FullChunks(delays)
    ensures useInternalWatchdog ==> elapsed >= ms
    ensures useInternalWatchdog ==> forall i :: 0 <= i < |delays| ==> 0 < delays[i] <= WatchdogChunk
    ensures useInternalWatchdog ==> forall i :: 0 <= i < |delays| - 1 ==> delays[i] == WatchdogChunk
    ensures useInternalWatchdog ==> Sum(delays) <= elapsed
  {
    if !useInternalWatchdog {
      return [ms], 0, ms + lag(0);
    }
    delays := [];
    resets := 0;
    elapsed := 0;
    while elapsed < ms
      invariant forall i :: 0 <= i < |delays| ==> 0 < delays[i] <= WatchdogChunk
      invariant forall i :: 0 <= i < |delays| - 1 ==> delays[i] == WatchdogChunk
      invariant |delays| > 0 && elapsed < ms ==> delays[|delays| - 1] == WatchdogChunk
      invariant Sum(delays) <= elapsed
      invariant resets == FullChunks(delays)
      decreases ms - elapsed
    {
      var chunk: nat;
      if ms - elapsed >= WatchdogChunk {
        chunk := WatchdogChunk;
        resets := resets + 1;
      } else {
        chunk := ms - elapsed;
      }
      delays := delays + [chunk];
      assert Sum(delays) == Sum(delays[..|delays| - 1]) + chunk;
      elapsed := elapsed + chunk + lag(|delays| - 1);
    }
  }

  /** `howMany` HIGH/LOW pairs. */
  function Pulses(howMany: nat): seq<bool>
  {
    if howMany == 0 then [] else Pulses(howMany - 1) + [true, false]
  }

  /** `ledBlink(howMany, ms)`: the levels written to the LED, each followed by a `delayWdt(ms)`. */
  method LedBlink(howMany: byte, ms: uint16) returns (writes: seq<bool>)
    ensures writes == Pulses(howMany)
    ensures |writes| == 2 * howMany
    ensures howMany > 0 ==> !writes[|writes| - 1]
  {
    writes := [];
    var i := 0;
    while i < howMany
      invariant 0 <= i <= howMany
      invariant writes == Pulses(i)
      invariant |writes| == 2 * i
    {
      writes := writes + [true];
      writes := writes + [false];
      i := i + 1;
    }
  }

  /** `clamp(v, lo, hi)`. */
  function Clamp(v: int, lo: int, hi: int): (r: int)
    ensures lo <= hi ==> lo <= r <= hi
    ensures lo <= v <= hi ==> r == v
    ensures v < lo ==> r == lo
  {
    if v < lo then lo else if hi < v then hi else v
  }

  /** Every pulse pattern alternates HIGH and LOW, starting HIGH. */
  lemma {:induction false} PulsesAlternate(howMany: nat)
    ensures forall i :: 0 <= i < |Pulses(howMany)| ==> Pulses(howMany)[i] == (i % 2 == 0)
  {
    if howMany > 0 {
      PulsesAlternate(howMany - 1);
      var p := Pulses(howMany - 1);
      assert Pulses(howMany) == p + [true, false];
      assert |p| == 2 * (howMany - 1) by { PulsesLength(howMany - 1); }
    }
  }

  lemma {:induction false} PulsesLength(howMany: nat)
    ensures |Pulses(howMany)| == 2 * howMany
  {
    if howMany > 0 {
      PulsesLength(howMany - 1);
    }
  }
}

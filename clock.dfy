/**
 * The free-running millisecond counter of the microcontroller. `millis()`
 * returns an `unsigned long`, which is 32 bits wide on these boards, so the
 * counter wraps to 0 after 2^32 - 1 ms (about 49.7 days). Every sketch gates
 * its periodic work on `now - last`, computed in unsigned arithmetic.
 */
module Clock {

  const TWO32: int := 0x1_0000_0000

  /** An `unsigned long` value on a 32-bit target. */
  type U32 = x: int | 0 <= x < TWO32

  /** `now - last` as C computes it on two `unsigned long`s: modulo 2^32. */
  function Elapsed(now: U32, last: U32): (d: U32)
    ensures (last + d) % TWO32 == now
  {
    if last <= now then now - last else now - last + TWO32
  }

  /** The gate `now - last >= interval` used by the two networked sketches. */
  predicate Due(now: U32, last: U32, interval: nat)
  {
    Elapsed(now, last) >= interval
  }

  /** The strict gate `now - last > interval` used by the proximity-only sketch. */
  predicate DueStrictly(now: U32, last: U32, interval: nat)
  {
    Elapsed(now, last) > interval
  }

  /**
   * If `k` milliseconds (fewer than 2^32) really passed since the stamp `last`,
   * the unsigned difference reports exactly `k`, whether or not the counter
   * wrapped in between.
   */
  lemma ElapsedIsTimeSinceStamp(last: U32, k: nat)
    requires k < TWO32
    ensures Elapsed((last + k) % TWO32, last) == k
  {
    if last + k < TWO32 {
      assert (last + k) % TWO32 == last + k;
    } else {
      assert (last + k) % TWO32 == last + k - TWO32;
    }
  }

  /** Both gates fire exactly when enough real time has passed, across a wrap too. */
  lemma GatesTolerateWrap(last: U32, k: nat, interval: nat)
    requires k < TWO32
    ensures Due((last + k) % TWO32, last, interval) <==> k >= interval
    ensures DueStrictly((last + k) % TWO32, last, interval) <==> k > interval
  {
    ElapsedIsTimeSinceStamp(last, k);
  }
}

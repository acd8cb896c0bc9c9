/** Clock readings, as the original keeps them. */
module Millis {
  import opened Bytes

  /** A millisecond clock reading, 64 bits wide. */
  type Time = t: nat | t < TWO_TO_64

  /** Unsigned 64-bit subtraction. */
  function Elapsed(now: Time, since: Time): Time {
    if now >= since then now - since else now - since + TWO_TO_64
  }

  /** It wraps: the difference modulo 2^64. */
  lemma ElapsedIsModular(now: Time, since: Time)
    ensures Elapsed(now, since) == (now as int - since) % TWO_TO_64
  {
  }
}

// The free-running microsecond counter: `unsigned long` is 32 bits on the target, so every
// interval in the source is a subtraction modulo 2^32.
module Clock {
  const WRAP: int := 0x1_0000_0000

  type Micros = t: int | 0 <= t < 0x1_0000_0000

  /** `now - since` in 32-bit unsigned arithmetic. */
  function Elapsed(now: Micros, since: Micros): Micros {
    (now - since) % WRAP
  }

  /** The reading of the counter `gap` microseconds after it read `now`. */
  function Advance(now: Micros, gap: nat): Micros {
    (now + gap) % WRAP
  }

  /** A schedule is the list of gaps between one update call and the next. */
  ghost predicate Paced(gaps: seq<nat>, most: nat) {
    forall i | 0 <= i < |gaps| :: 1 <= gaps[i] <= most
  }

  function Duration(gaps: seq<nat>): nat {
    if gaps == [] then 0 else gaps[0] + Duration(gaps[1..])
  }

  /** What lies between two readings, across at most one wrap of the counter. */
  lemma ElapsedAcrossWrap(now: Micros, since: Micros)
    ensures Elapsed(now, since) == if since <= now then now - since else now + 4294967296 - since
    ensures Advance(since, Elapsed(now, since)) == now
  {
  }

  lemma ElapsedAfter(now: Micros, since: Micros, gap: nat)
    requires Elapsed(now, since) + gap < WRAP
    ensures Elapsed(Advance(now, gap), since) == Elapsed(now, since) + gap
  {
  }

  lemma ElapsedAtMost(now: Micros, since: Micros, gap: nat)
    ensures Elapsed(Advance(now, gap), since) <= Elapsed(now, since) + gap
  {
  }

  lemma ElapsedShift(now: Micros, since: Micros, shift: nat)
    ensures Elapsed(Advance(now, shift), Advance(since, shift)) == Elapsed(now, since)
  {
  }
}

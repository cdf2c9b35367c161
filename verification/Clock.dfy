/** Instants and durations in microseconds since the epoch. */
module Clock {

  type Time = int

  const SECOND: int := 1_000_000
  const MINUTE: int := 60 * SECOND
  const HOUR: int := 60 * MINUTE

  /** int(timestamp): whole seconds, truncated toward zero. */
  function Seconds(t: Time): int {
    if t >= 0 then t / SECOND else -(-t / SECOND)
  }

  /** The instant with its fraction of a second cut off. */
  function Floored(t: Time): Time {
    Seconds(t) * SECOND
  }

  lemma FlooredIsClose(t: Time)
    requires t >= 0
    ensures Floored(t) <= t < Floored(t) + SECOND
    ensures Seconds(Floored(t)) == Seconds(t)
  {
  }
}

/**
 Wall-clock readings. A reading is a number of nanoseconds since the Unix epoch; the relay cuts it
 down to whole milliseconds, and to whole hours ("epochs") for the ticket protocol.
 */
module Clock {
  const MILLISECOND := 1_000_000
  const SECOND := 1_000_000_000
  const MINUTE := 60 * SECOND
  const HOUR := 3600 * SECOND

  /** How many hours a ticket key, a spent marker and a quota counter stay live. */
  const LIFETIME := 12

  /** What reading the time gives: the wall clock, which may be set back, and a clock that only goes on. */
  datatype Reading = Reading(wall: nat, mono: nat)

  function Later(t: Reading, ns: nat): Reading { Reading(t.wall + ns, t.mono + ns) }

  function Millis(t: nat): (ms: nat)
    ensures ms * MILLISECOND <= t < (ms + 1) * MILLISECOND
  {
    t / MILLISECOND
  }

  /** The hour epoch of a reading: whole seconds first, then whole hours. */
  function HourOf(t: nat): (h: nat)
    ensures h * HOUR <= t < (h + 1) * HOUR
  {
    t / SECOND / 3600
  }

  /** The instant, in milliseconds, at which tickets of an epoch stop being valid. */
  function ExpiryMillis(epoch: int): int {
    (epoch * 3600 + LIFETIME * 3600) * 1000
  }

  lemma HourMonotone(t: nat, u: nat)
    requires t <= u
    ensures HourOf(t) <= HourOf(u)
  {
  }

  /** A ticket has reached its expiry instant exactly when the hour has reached epoch + 12. */
  lemma ExpiryIsAnHourBoundary(epoch: int, t: nat)
    ensures ExpiryMillis(epoch) <= Millis(t) <==> HourOf(t) >= epoch + LIFETIME
  {
  }
}

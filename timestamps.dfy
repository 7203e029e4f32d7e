/** Date-times as the tracker sees them, at minute resolution.

    A value carries its wall-clock reading and, when it is timezone-aware, its
    offset from UTC in minutes; a naive value has no offset. ISO strings are
    represented by the date-time they format, so parsing and formatting are
    the identity here. */
module Timestamps {
  import opened Basics

  datatype DateTime = DateTime(wallMinutes: int, utcOffset: Option<int>)

  predicate IsAware(dt: DateTime) {
    dt.utcOffset.Some?
  }

  /** The instant an aware date-time denotes, in minutes since the epoch (UTC).
      Two aware date-times compare by this instant. */
  function UtcInstant(dt: DateTime): int
    requires IsAware(dt)
  {
    dt.wallMinutes - dt.utcOffset.value
  }

  /** `_ensure_utc_aware`: a naive date-time is read as UTC; an aware one is
      returned unchanged. */
  function EnsureUtcAware(dt: DateTime): (r: DateTime)
    ensures IsAware(r)
    ensures r.wallMinutes == dt.wallMinutes
    ensures IsAware(dt) ==> r == dt
    ensures !IsAware(dt) ==> UtcInstant(r) == dt.wallMinutes
  {
    if dt.utcOffset.None? then DateTime(dt.wallMinutes, Some(0)) else dt
  }

  /** Normalising twice is normalising once. */
  lemma EnsureUtcAwareIdempotent(dt: DateTime)
    ensures EnsureUtcAware(EnsureUtcAware(dt)) == EnsureUtcAware(dt)
  {
  }

  /** `dt + timedelta(minutes=m)`: the offset is kept. */
  function AddMinutes(dt: DateTime, m: int): (r: DateTime)
    ensures r.utcOffset == dt.utcOffset
    ensures IsAware(dt) ==> UtcInstant(r) == UtcInstant(dt) + m
  {
    DateTime(dt.wallMinutes + m, dt.utcOffset)
  }
}

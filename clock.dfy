/** Times of day, and the fixed 5-minute timeline of one day.

    A parsed sample time is only ever inspected through its hours and
    minutes, so a time is a `TimeOfDay`: an hour 0..23 and a minute 0..59. */
module Clock {

  type Hour = h: int | 0 <= h < 24
  type Minute = m: int | 0 <= m < 60
  /** Minutes since midnight. */
  type DayMinute = m: int | 0 <= m < 1440

  const MinutesPerDay: int := 24 * 60
  /** The grid spacing, in minutes. */
  const SlotSpacing: int := 5
  /** The number of 5-minute marks in a day. */
  const SlotCount: nat := 288

  datatype TimeOfDay = TimeOfDay(hour: Hour, minute: Minute)

  /** `getTimeOnly`: hours times 60 plus minutes. */
  function TimeOnly(t: TimeOfDay): (m: DayMinute)
    ensures m / 60 == t.hour && m % 60 == t.minute
  {
    t.hour * 60 + t.minute
  }

  /** The clock reading left by `setHours(floor(m / 60))` followed by
      `setMinutes(m % 60)`. */
  function AtMinute(m: DayMinute): (t: TimeOfDay)
    ensures TimeOnly(t) == m
  {
    TimeOfDay(m / 60, m % 60)
  }

  /** Two times of day with the same minute-of-day are the same time. */
  lemma TimeOnlyInjective(s: TimeOfDay, t: TimeOfDay)
    requires TimeOnly(s) == TimeOnly(t)
    ensures s == t
  {
  }

  /** `getTimeOnly` loses neither the hour nor the minute: setting a clock
      from its result gives the same time of day back. */
  lemma TimeOnlyRoundTrip(t: TimeOfDay)
    ensures AtMinute(TimeOnly(t)) == t
  {
    TimeOnlyInjective(AtMinute(TimeOnly(t)), t);
  }

  /** The 288 marks 00:00, 00:05, ..., 23:55. */
  function Timeline(): (r: seq<TimeOfDay>)
    ensures |r| == SlotCount
    ensures forall k :: 0 <= k < |r| ==> TimeOnly(r[k]) == SlotSpacing * k
    ensures r[0] == TimeOfDay(0, 0) && r[SlotCount - 1] == TimeOfDay(23, 55)
  {
    seq(SlotCount, k requires 0 <= k < SlotCount => AtMinute(SlotSpacing * k))
  }

  /** The loop that builds the dummy timeline: one mark every 5 minutes
      from minute 0 while the minute is below 24 * 60. */
  method DummyTimeline() returns (r: seq<TimeOfDay>)
    ensures r == Timeline()
  {
    r := [];
    var i := 0;
    while i < MinutesPerDay
      invariant 0 <= i <= MinutesPerDay
      invariant i == SlotSpacing * |r|
      invariant r == Timeline()[..|r|]
    {
      r := r + [AtMinute(i)];
      i := i + SlotSpacing;
    }
  }
}

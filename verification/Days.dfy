// Local days as the reports cut them, in a zone with a fixed offset from UTC. An
// instant is counted in nanoseconds since the epoch, a Unix time in whole seconds.
module Days {
  import opened Prelude

  const NANOS := 1_000_000_000
  const DAY_SECONDS := 86400
  const DAY := DAY_SECONDS * NANOS

  // The seconds a fixed-offset zone is ahead of UTC.
  type Zone = int

  // time.Time.Unix
  function Unix(t: int): int {
    t / NANOS
  }

  // The local calendar day of a Unix time, counted from the epoch.
  function DayOf(ts: int, zone: Zone): int {
    (ts + zone) / DAY_SECONDS
  }

  // time.Date of a local day at midnight
  function Midnight(day: int, zone: Zone): int {
    (day * DAY_SECONDS - zone) * NANOS
  }

  // isMidnight
  predicate IsMidnight(t: int, zone: Zone) {
    (t + zone * NANOS) % DAY == 0
  }

  // dateOnly
  function DateOnly(t: int, zone: Zone): int {
    Midnight((t + zone * NANOS) / DAY, zone)
  }

  datatype TimeRange = TimeRange(start: int, end: int, zone: Zone) {
    function StartUnix(): int {
      Unix(start)
    }

    function EndUnixInclusive(): int {
      var e := if IsMidnight(end, zone) then end - NANOS else end;
      Unix(if e < start then start else e)
    }
  }

  // BuildTimeRangeForDate
  function RangeForDate(t: int, zone: Zone): TimeRange {
    var start := DateOnly(t, zone);
    TimeRange(start, start + DAY, zone)
  }

  // BuildTimeRangeForToday
  function RangeForToday(now: int, zone: Zone): TimeRange {
    TimeRange(DateOnly(now, zone), now, zone)
  }

  lemma MidnightIsMidnight(day: int, zone: Zone)
    ensures IsMidnight(Midnight(day, zone), zone)
    ensures Unix(Midnight(day, zone)) == day * DAY_SECONDS - zone
    ensures DateOnly(Midnight(day, zone), zone) == Midnight(day, zone)
  {
    assert Midnight(day, zone) + zone * NANOS == day * DAY;
  }

  // The window a date's report asks for holds exactly the Unix times of that local day;
  // so the windows of different days are disjoint and leave no second out.
  lemma DayWindowHoldsTheDay(t: int, zone: Zone, ts: int)
    ensures var w := RangeForDate(t, zone);
            w.StartUnix() <= ts <= w.EndUnixInclusive() <==> (ts + zone) / 86400 == (t / 1_000_000_000 + zone) / 86400
    ensures DayOf(ts, zone) == (ts + zone) / 86400 && Unix(t) == t / 1_000_000_000
  {
    var day := (t + zone * NANOS) / DAY;
    DayOfInstant(t, zone);
    MidnightIsMidnight(day, zone);
    MidnightIsMidnight(day + 1, zone);
    assert Midnight(day, zone) + DAY == Midnight(day + 1, zone);
    assert Unix(Midnight(day + 1, zone) - NANOS) == (day + 1) * DAY_SECONDS - zone - 1;
    InDay(ts, zone, day);
  }

  lemma DayOfInstant(t: int, zone: Zone)
    ensures (t + zone * NANOS) / DAY == DayOf(Unix(t), zone)
  {
    var s, r := t / NANOS, t % NANOS;
    var d, q := (s + zone) / DAY_SECONDS, (s + zone) % DAY_SECONDS;
    assert t + zone * NANOS == (s + zone) * NANOS + r == d * DAY + (q * NANOS + r);
    assert 0 <= q * NANOS + r < DAY;
  }

  lemma InDay(ts: int, zone: Zone, day: int)
    ensures DayOf(ts, zone) == day <==> day * DAY_SECONDS - zone <= ts <= (day + 1) * DAY_SECONDS - zone - 1
  {
  }

  // The range a backfill scans once: from the first midnight to the last 23:59:59.
  function BackfillStart(firstDay: int, zone: Zone): int {
    Unix(Midnight(firstDay, zone))
  }

  function BackfillEnd(lastDay: int, zone: Zone): int {
    Unix(Midnight(lastDay, zone) + (DAY_SECONDS - 1) * NANOS)
  }

  // It holds exactly the Unix times of the days it backfills.
  lemma BackfillRangeHoldsItsDays(firstDay: int, lastDay: int, zone: Zone, ts: int)
    ensures BackfillStart(firstDay, zone) <= ts <= BackfillEnd(lastDay, zone) <==> firstDay <= (ts + zone) / 86400 <= lastDay
    ensures DayOf(ts, zone) == (ts + zone) / 86400
  {
    MidnightIsMidnight(firstDay, zone);
    assert Midnight(lastDay, zone) + (DAY_SECONDS - 1) * NANOS == ((lastDay + 1) * DAY_SECONDS - zone - 1) * NANOS;
    InDay(ts, zone, DayOf(ts, zone));
  }

  // Today's window so far runs from the first second of the day to the present one, even
  // at midnight sharp.
  lemma TodayWindowEndsNow(now: int, zone: Zone)
    ensures var w := RangeForToday(now, zone);
            && w.StartUnix() <= now / 1_000_000_000 == w.EndUnixInclusive()
            && (w.StartUnix() + zone) / 86400 == (now / 1_000_000_000 + zone) / 86400
            && (w.StartUnix() + zone) % 86400 == 0
  {
    var day := (now + zone * NANOS) / DAY;
    DayOfInstant(now, zone);
    MidnightIsMidnight(day, zone);
    InDay(Unix(Midnight(day, zone)), zone, day);
    InDay(Unix(Midnight(day, zone)) - 1, zone, day - 1);
    assert (now + zone * NANOS) - day * DAY == now - Midnight(day, zone);
    assert Midnight(day, zone) <= now;
    if IsMidnight(now, zone) {
      assert now == Midnight(day, zone);
    }
  }
}

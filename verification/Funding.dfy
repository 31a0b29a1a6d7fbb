/** Funding boundaries: agents/shadow/pnl.py and agents/backtest/costs.py.

    Instants are microseconds counted from a UTC midnight, so the UTC hour of day of `t` is
    `t / HOUR % 24`.  Funding falls due at every full hour whose hour of day is divisible by
    the interval, and the interval divides 24.
 */
module Funding {

  const HOUR: int := 3_600_000_000

  /** The intervals accepted by `ShadowCostConfig`: the positive divisors of 24. */
  type Interval = hours: int | 0 < hours && 24 % hours == 0 witness 8

  function HourOf(t: int): int {
    t / HOUR
  }

  /** `t` is an instant at which funding falls due. */
  predicate IsBoundary(t: int, hours: Interval) {
    t % HOUR == 0 && HourOf(t) % 24 % hours == 0
  }

  /** The number of boundaries in `(start, end]`, in end form. */
  function FundingEvents(start: int, end: int, hours: Interval): (n: nat)
  {
    if end <= start then 0
    else
      DivMono(HourOf(start), HourOf(end), hours);
      HourOf(end) / hours - HourOf(start) / hours
  }

  // ---------- Quotients and remainders ----------

  lemma NoMultipleBetween(k: int, d: int)
    requires -d < k * d < d
    ensures k == 0
  {
  }

  lemma DivModUnique(x: int, d: int, q: int, r: int)
    requires x == q * d + r && 0 <= r < d
    ensures x / d == q && x % d == r
  {
    NoMultipleBetween(q - x / d, d);
  }

  lemma ScaleLe(x: int, y: int, d: int)
    requires x <= y && 0 <= d
    ensures x * d <= y * d
  {
  }

  lemma DivMono(a: int, b: int, d: int)
    requires a <= b && 0 < d
    ensures a / d <= b / d
  {
    if b / d < a / d {
      ScaleLe(b / d + 1, a / d, d);
      assert false;
    }
  }

  /** The code tests the hour of day; since the interval divides 24, the running hour will do. */
  lemma HourOfDay(h: int, d: Interval)
    ensures h % 24 % d == h % d
  {
    var m, day, hour := 24 / d, h / 24, h % 24;
    assert m * d == 24;
    calc {
      h;
      24 * day + hour;
      m * d * day + (hour / d * d + hour % d);
      (m * day + hour / d) * d + hour % d;
    }
    DivModUnique(h, d, m * day + hour / d, hour % d);
  }

  /** `m` is the first multiple of `d` after `h`. */
  lemma NextMultiple(h: int, m: int, d: int)
    requires 0 < d && m == (h / d + 1) * d
    ensures h < m && m % d == 0 && m / d == h / d + 1
  {
    DivModUnique(m, d, h / d + 1, 0);
  }

  lemma NoMultipleBefore(h: int, x: int, m: int, d: int)
    requires 0 < d && m == (h / d + 1) * d && h < x < m
    ensures x % d != 0 && x / d == h / d
  {
    DivModUnique(x, d, h / d, x - h / d * d);
  }

  lemma StepMultiple(h: int, d: int)
    requires 0 < d && h % d == 0
    ensures (h + d) % d == 0 && (h + d) / d == h / d + 1
  {
    DivModUnique(h + d, d, h / d + 1, 0);
  }

  lemma WithinStep(h: int, x: int, d: int)
    requires 0 < d && h % d == 0 && h <= x < h + d
    ensures x / d == h / d
  {
    DivModUnique(x, d, h / d, x - h);
  }

  lemma DivStep(h: int, d: int)
    requires 0 < d
    ensures (h + 1) / d == h / d + if (h + 1) % d == 0 then 1 else 0
  {
    if (h + 1) % d == 0 {
      DivModUnique(h, d, (h + 1) / d - 1, d - 1);
    } else {
      DivModUnique(h, d, (h + 1) / d, (h + 1) % d - 1);
    }
  }

  // ---------- The two counters ----------

  /** The instant at which hour `h` begins. */
  function AtHour(h: int): int {
    h * HOUR
  }

  lemma AtHourOrder(h: int, t: int)
    ensures HourOf(AtHour(h)) == h && AtHour(h) % HOUR == 0
    ensures AtHour(h) <= t <==> h <= HourOf(t)
  {
  }

  lemma AtHourAdd(h: int, k: int)
    ensures AtHour(h + k) == AtHour(h) + k * HOUR
  {
  }

  /** The first loop of the code walks hour by hour to the first boundary after the start; the
      second jumps from boundary to boundary. */
  method FundingEventCount(start: int, end: int, hours: Interval) returns (count: nat)
    ensures count == FundingEvents(start, end, hours)
  {
    if end <= start {
      return 0;
    }
    var cursor := start - start % HOUR;
    ghost var from, to, hour := HourOf(start), HourOf(end), HourOf(start);
    ghost var first := (from / hours + 1) * hours;
    NextMultiple(from, first, hours);
    AtHourOrder(hour, start);
    while cursor <= start || HourOf(cursor) % 24 % hours != 0
      invariant cursor == AtHour(hour)
      invariant from <= hour <= first
      decreases first - hour
    {
      HourOfDay(hour, hours);
      AtHourOrder(hour, start);
      cursor := cursor + HOUR;
      hour := hour + 1;
    }
    HourOfDay(hour, hours);
    AtHourOrder(hour, start);
    if hour < first {
      NoMultipleBefore(from, hour, first, hours);
    }
    count := 0;
    while cursor <= end
      invariant cursor == AtHour(hour)
      invariant hour % hours == 0 && hour / hours == from / hours + 1 + count
      invariant if count == 0 then hour == first else hour <= to + hours
    {
      AtHourOrder(hour, end);
      StepMultiple(hour, hours);
      AtHourAdd(hour, hours);
      count := count + 1;
      cursor := cursor + hours * HOUR;
      hour := hour + hours;
    }
    AtHourOrder(hour, end);
    DivMono(start, end, HOUR);
    if count == 0 {
      if from < to {
        NoMultipleBefore(from, to, first, hours);
      }
    } else {
      StepBack(hour, hours);
      WithinStep(hour - hours, to, hours);
    }
  }

  lemma StepBack(h: int, d: int)
    requires 0 < d && h % d == 0
    ensures (h - d) % d == 0 && (h - d) / d == h / d - 1
  {
    DivModUnique(h - d, d, h / d - 1, 0);
  }

  /** Splitting a span neither loses nor repeats a boundary. */
  lemma FundingEventsSplit(a: int, b: int, c: int, hours: Interval)
    requires a <= b <= c
    ensures FundingEvents(a, c, hours) == FundingEvents(a, b, hours) + FundingEvents(b, c, hours)
  {
  }

  /** The hours after `lo` and up to `hi` at which funding falls due. */
  ghost function BoundaryHours(lo: int, hi: int, hours: Interval): set<int> {
    set h | lo < h <= hi && h % hours == 0
  }

  lemma {:induction false} BoundaryHoursCount(lo: int, hi: int, hours: Interval)
    requires lo <= hi
    ensures |BoundaryHours(lo, hi, hours)| == hi / hours - lo / hours
    decreases hi - lo
  {
    if lo < hi {
      BoundaryHoursCount(lo, hi - 1, hours);
      DivStep(hi - 1, hours);
      assert BoundaryHours(lo, hi, hours)
          == BoundaryHours(lo, hi - 1, hours) + if hi % hours == 0 then {hi} else {};
    } else {
      assert BoundaryHours(lo, hi, hours) == {};
    }
  }

  /** The closed form counts the instants at which funding falls due, each once. */
  lemma FundingEventsAreBoundaries(start: int, end: int, hours: Interval)
    ensures FundingEvents(start, end, hours) == |BoundaryHours(HourOf(start), HourOf(end), hours)|
    ensures forall h :: h in BoundaryHours(HourOf(start), HourOf(end), hours)
                    <==> start < AtHour(h) <= end && IsBoundary(AtHour(h), hours)
  {
    forall h
      ensures h in BoundaryHours(HourOf(start), HourOf(end), hours)
         <==> start < AtHour(h) <= end && IsBoundary(AtHour(h), hours)
    {
      AtHourOrder(h, start);
      AtHourOrder(h, end);
      HourOfDay(h, hours);
    }
    if start < end {
      DivMono(start, end, HOUR);
      BoundaryHoursCount(HourOf(start), HourOf(end), hours);
    } else {
      DivMono(end, start, HOUR);
      assert BoundaryHours(HourOf(start), HourOf(end), hours) == {};
    }
  }

  /** The boundaries of `(start, end]` in order. */
  ghost predicate IsBoundaryList(times: seq<int>, start: int, end: int, hours: Interval) {
    && (forall i, j :: 0 <= i < j < |times| ==> times[i] < times[j])
    && (forall t :: t in times <==> start < t <= end && IsBoundary(t, hours))
  }

  /** One more full hour within the span adds itself, if it is a boundary, and nothing else. */
  lemma ExtendByHour(times: seq<int>, start: int, hour: int, hours: Interval)
    requires start < AtHour(hour)
    requires IsBoundaryList(times, start, AtHour(hour - 1), hours)
    requires |times| == FundingEvents(start, AtHour(hour - 1), hours)
    ensures if hour % hours == 0
            then IsBoundaryList(times + [AtHour(hour)], start, AtHour(hour), hours)
                 && |times| + 1 == FundingEvents(start, AtHour(hour), hours)
            else IsBoundaryList(times, start, AtHour(hour), hours)
                 && |times| == FundingEvents(start, AtHour(hour), hours)
  {
    HourOfDay(hour, hours);
    AtHourOrder(hour, start);
    AtHourOrder(hour - 1, start);
    DivStep(hour - 1, hours);
    forall t | AtHour(hour - 1) < t < AtHour(hour)
      ensures !IsBoundary(t, hours)
    {
      AtHourOrder(hour - 1, t);
      AtHourOrder(hour, t);
    }
    assert IsBoundary(AtHour(hour), hours) <==> hour % hours == 0;
    assert forall i :: 0 <= i < |times| ==> times[i] in times;
  }

  /** After the last full hour of the span nothing falls due. */
  lemma ExtendToEnd(times: seq<int>, start: int, hour: int, end: int, hours: Interval)
    requires start < end && AtHour(hour) <= end < AtHour(hour + 1)
    requires IsBoundaryList(times, start, AtHour(hour), hours)
    requires |times| == FundingEvents(start, AtHour(hour), hours)
    ensures IsBoundaryList(times, start, end, hours)
    ensures |times| == FundingEvents(start, end, hours)
  {
    AtHourOrder(hour, end);
    AtHourOrder(hour + 1, end);
    AtHourOrder(hour, start);
    forall t | AtHour(hour) < t <= end
      ensures !IsBoundary(t, hours)
    {
      AtHourOrder(hour, t);
      AtHourOrder(hour + 1, t);
    }
  }

  /** The hour-by-hour scan of the backtest lists exactly the boundaries, and it lists as many as
      the shadow counter counts; it lists none when funding is not applied. */
  method GetFundingTimestamps(apply: bool, start: int, end: int, hours: Interval) returns (times: seq<int>)
    ensures apply ==> IsBoundaryList(times, start, end, hours) && |times| == FundingEvents(start, end, hours)
    ensures !apply ==> times == []
  {
    times := [];
    if !apply {
      return;
    }
    var current := start - start % HOUR;
    ghost var hour := HourOf(start);
    AtHourOrder(hour, start);
    assert start < AtHour(hour + 1) by { AtHourOrder(hour + 1, start); }
    while current <= end
      invariant current == AtHour(hour) && HourOf(start) <= hour
      invariant hour == HourOf(start) ==> times == []
      invariant IsBoundaryList(times, start, AtHour(hour - 1), hours)
      invariant |times| == FundingEvents(start, AtHour(hour - 1), hours)
      invariant hour <= HourOf(end) + 1 || hour == HourOf(start)
    {
      HourOfDay(hour, hours);
      AtHourOrder(hour, start);
      AtHourOrder(hour, end);
      if HourOf(current) % 24 % hours == 0 {
        if start < current <= end {
          ExtendByHour(times, start, hour, hours);
          times := times + [current];
        }
      } else if start < current {
        ExtendByHour(times, start, hour, hours);
      }
      current := current + HOUR;
      hour := hour + 1;
    }
    AtHourOrder(hour, end);
    AtHourOrder(hour - 1, end);
    if start < end {
      ExtendToEnd(times, start, hour - 1, end, hours);
    }
  }
}

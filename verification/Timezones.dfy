/** Calendar keys and day bounds of a zone whose clock differs from UTC by a constant whole number of seconds. */
module Timezones {
  import opened Calendar

  /** The zone's clock minus UTC, in milliseconds. */
  type Offset = ms: int | ms % 1000 == 0

  /** Date.UTC maps the years 0 to 99 to 1900 to 1999. */
  function FullYear(y: int): int
  {
    if 0 <= y <= 99 then 1900 + y else y
  }

  /** Date.UTC of a date and a time of day in milliseconds */
  function Utc(x: Date, timeOfDay: int): int
  {
    MakeDay(FullYear(x.year), x.month, x.day) * DAY + timeOfDay
  }

  /** getDatePartsInTimezone, and with it getDateKeyInTimezone: the date on the zone's clock. */
  function DateKey(t: int, offset: Offset): Date
  {
    DateOf((t + offset) / DAY)
  }

  /** getOffsetMsAtInstant: the formatter prints the zone's clock to the second, Date.UTC reads it back. */
  function OffsetAt(t: int, offset: Offset): int
  {
    var seconds := (t + offset) % DAY / 1000;
    Utc(DateKey(t, offset), seconds * 1000) - t
  }

  /** zonedDateTimeToUtc: one guess, corrected once. */
  function ZonedToUtc(x: Date, timeOfDay: int, offset: Offset): int
  {
    var guess := Utc(x, timeOfDay);
    guess - OffsetAt(guess, offset)
  }

  /** 00:00:00.000 */
  function StartOfDay(x: Date, offset: Offset): int
  {
    ZonedToUtc(x, 0, offset)
  }

  /** 23:59:59.999 */
  function EndOfDay(x: Date, offset: Offset): int
  {
    ZonedToUtc(x, DAY - 1, offset)
  }

  function NextDay(x: Date): Date
  {
    DateOf(DayNumber(x) + 1)
  }

  lemma SameMilliseconds(t: int, offset: Offset)
    ensures (t + offset) % DAY % 1000 == t % 1000
  {
    var local := t + offset;
    assert local == local / DAY * DAY + local % DAY;
    Residue(local % DAY, 86_400 * (local / DAY));
    Residue(t, offset / 1000);
  }

  lemma Residue(x: int, k: int)
    ensures (x + 1000 * k) % 1000 == x % 1000
  {
  }

  /** The computed offset is the zone's, less the milliseconds that the formatter drops. */
  lemma OffsetDropsMilliseconds(t: int, offset: Offset)
    requires DateKey(t, offset).year >= 100
    ensures OffsetAt(t, offset) == offset - t % 1000
  {
    var local := t + offset;
    DateOfRoundTrip(local / DAY);
    SameMilliseconds(t, offset);
    DayAndRest(local);
  }

  lemma DayAndRest(local: int)
    ensures local / DAY * DAY + local % DAY == local
  {
  }

  /** A zoned time comes out late by its own milliseconds. */
  lemma ZonedToUtcExact(x: Date, timeOfDay: int, offset: Offset)
    requires Valid(x) && x.year >= 100
    requires DateKey(Utc(x, timeOfDay), offset).year >= 100
    ensures ZonedToUtc(x, timeOfDay, offset) == DayNumber(x) * DAY + timeOfDay - offset + timeOfDay % 1000
  {
    OffsetDropsMilliseconds(Utc(x, timeOfDay), offset);
    Residue(timeOfDay, DayNumber(x) * 86_400);
  }

  /** Every offset in use is less than a day. */
  predicate Plausible(offset: Offset) { -DAY < offset < DAY }

  lemma NeighboursAreModern(x: Date, timeOfDay: int, offset: Offset)
    requires Valid(x) && x.year > 100 && 0 <= timeOfDay < DAY && Plausible(offset)
    ensures DateKey(Utc(x, timeOfDay), offset).year >= 100
  {
    var d := (Utc(x, timeOfDay) + offset) / DAY;
    FirstDayAfter(Utc(x, timeOfDay) + offset, DayNumber(x) - 1);
    DayNumberRoundTrip(x);
    YearBounds(DayNumber(x));
    YearsAhead(101, x.year - 101);
    assert YearStart(101) == YearStart(100) + 365;
    YearAtLeast(d, 100);
  }

  lemma FirstDayAfter(ms: int, d: int)
    requires ms >= d * DAY
    ensures ms / DAY >= d
  {
  }

  /** The day starts at the zone's midnight. */
  lemma DayStart(x: Date, offset: Offset)
    requires Valid(x) && x.year > 100 && Plausible(offset)
    ensures StartOfDay(x, offset) == DayNumber(x) * DAY - offset
  {
    NeighboursAreModern(x, 0, offset);
    ZonedToUtcExact(x, 0, offset);
  }

  /** The computed end of a day lies 998 ms into the next one. */
  lemma DayEnd(x: Date, offset: Offset)
    requires Valid(x) && x.year > 100 && Plausible(offset)
    ensures EndOfDay(x, offset) == DayNumber(x) * DAY - offset + DAY + 998
  {
    var last := DAY - 1;
    assert last % 1000 == 999;
    NeighboursAreModern(x, last, offset);
    ZonedToUtcExact(x, last, offset);
    assert EndOfDay(x, offset) == ZonedToUtc(x, last, offset);
  }

  predicate InDayRange(t: int, x: Date, offset: Offset)
  {
    StartOfDay(x, offset) <= t <= EndOfDay(x, offset)
  }

  lemma KeyIsDay(t: int, x: Date, offset: Offset)
    requires Valid(x)
    ensures DateKey(t, offset) == x <==> (t + offset) / DAY == DayNumber(x)
  {
    DayNumberRoundTrip(x);
    DateOfRoundTrip((t + offset) / DAY);
  }

  lemma NextDayIsNext(x: Date)
    requires Valid(x)
    ensures Valid(NextDay(x)) && DayNumber(NextDay(x)) == DayNumber(x) + 1 && NextDay(x).year >= x.year
  {
    NextDate(x, DayNumber(x));
    DateAfter(NextDay(x), DayNumber(x));
    YearAfter(x, NextDay(x), DayNumber(x));
  }

  lemma NextDate(x: Date, d: int)
    requires DayNumber(x) == d
    ensures NextDay(x) == DateOf(d + 1)
  {
  }

  lemma DateAfter(y: Date, d: int)
    requires y == DateOf(d + 1)
    ensures Valid(y) && DayNumber(y) == d + 1
  {
    DateOfRoundTrip(d + 1);
  }

  lemma YearAfter(x: Date, y: Date, d: int)
    requires Valid(x) && DayNumber(x) == d && y == DateOf(d + 1)
    ensures y.year >= x.year
  {
    assert DateOf(d) == x by { DayNumberRoundTrip(x); }
    YearIsMonotone(d, d + 1);
  }

  lemma DayOfInstant(local: int, n: int)
    ensures local / DAY == n <==> n * DAY <= local < (n + 1) * DAY
    ensures n * DAY <= local < (n + 1) * DAY + 999 <==> local / DAY == n || (local / DAY == n + 1 && local % DAY < 999)
  {
    DayAndRest(local);
  }

  /** The half-open ranges from one day's start to the next do tile time: an instant has date x exactly there. */
  lemma StartsTileTime(t: int, x: Date, offset: Offset)
    requires Valid(x) && x.year > 100 && Plausible(offset)
    ensures DateKey(t, offset) == x <==> StartOfDay(x, offset) <= t < StartOfDay(NextDay(x), offset)
  {
    NextDayIsNext(x);
    KeyIsDay(t, x, offset);
    DayOfInstant(t + offset, DayNumber(x));
    assert StartOfDay(x, offset) == DayNumber(x) * DAY - offset by { DayStart(x, offset); }
    assert StartOfDay(NextDay(x), offset) == (DayNumber(x) + 1) * DAY - offset by { DayStart(NextDay(x), offset); }
  }

  /** The closed range of day x holds the instants of x and the first 999 ms of the day after. */
  lemma DayRangeExact(t: int, x: Date, offset: Offset)
    requires Valid(x) && x.year > 100 && Plausible(offset)
    ensures InDayRange(t, x, offset) <==>
      DateKey(t, offset) == x || (DateKey(t, offset) == NextDay(x) && (t + offset) % DAY < 999)
  {
    NextDayIsNext(x);
    KeyIsDay(t, x, offset);
    KeyIsDay(t, NextDay(x), offset);
    DayOfInstant(t + offset, DayNumber(x));
    DayStart(x, offset);
    DayEnd(x, offset);
  }

  ghost predicate KeysAndRangesAgree(t: int, offset: Offset)
  {
    forall x {:trigger InDayRange(t, x, offset)} :: Valid(x) && x.year > 100 ==>
      (InDayRange(t, x, offset) <==> DateKey(t, offset) == x)
  }

  /** Range and date key agree for every day exactly when the zone's clock is at least 999 ms past midnight. */
  lemma KeysAndRangesAgreeExactly(t: int, offset: Offset)
    requires Plausible(offset) && DateKey(t, offset).year > 101
    ensures KeysAndRangesAgree(t, offset) <==> (t + offset) % DAY >= 999
  {
    if (t + offset) % DAY >= 999 {
      forall x | Valid(x) && x.year > 100 ensures InDayRange(t, x, offset) <==> DateKey(t, offset) == x {
        DayRangeExact(t, x, offset);
      }
    } else {
      var d := (t + offset) / DAY;
      var yesterday := DateOf(d - 1);
      DateOfRoundTrip(d - 1);
      DateOfRoundTrip(d);
      YesterdaysYear(d);
      DayRangeExact(t, yesterday, offset);
      assert InDayRange(t, yesterday, offset) && DateKey(t, offset) != yesterday;
    }
  }

  lemma YesterdaysYear(d: int)
    ensures DateOf(d - 1).year >= DateOf(d).year - 1
  {
    YearBounds(d);
    YearLength(DateOf(d).year - 1);
    YearAtLeast(d - 1, DateOf(d).year - 1);
  }
}

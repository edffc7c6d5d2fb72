/** getWeekKeyInTimezone: the ISO 8601 week of a date (section 3.2.2 of ISO 8601:2004). The code builds its dates with
    Date.UTC, so for the years 0 to 99 it gives the weeks of 1900 to 1999; this model takes every year at face value. */
module WeekKeys {
  import opened Calendar

  datatype WeekKey = WeekKey(year: int, week: int)

  /** getUTCDay: 0 is Sunday. */
  function Weekday(d: int): int
  {
    (d + 4) % 7
  }

  /** The Thursday that the code moves to: Sunday counts as the seventh day. */
  function ThursdayOf(d: int): int
  {
    d + 4 - (if Weekday(d) == 0 then 7 else Weekday(d))
  }

  /** Math.ceil(n / 7) */
  function CeilWeeks(n: int): int
  {
    (n + 6) / 7
  }

  function WeekOfDay(d: int): WeekKey
  {
    var thursday := ThursdayOf(d);
    var year := DateOf(thursday).year;
    WeekKey(year, CeilWeeks(thursday - DayNumber(Date(year, 1, 1)) + 1))
  }

  function WeekOf(x: Date): WeekKey
  {
    WeekOfDay(DayNumber(x))
  }

  /** The Monday on or before a day. */
  function Monday(d: int): int
  {
    d - (d + 3) % 7
  }

  predicate Before(a: WeekKey, b: WeekKey)
  {
    a.year < b.year || (a.year == b.year && a.week < b.week)
  }

  lemma ThursdayIsInTheWeek(d: int)
    ensures ThursdayOf(d) == Monday(d) + 3 && Weekday(ThursdayOf(d)) == 4
    ensures Monday(d) <= d < Monday(d) + 7 && Weekday(Monday(d)) == 1
  {
  }

  lemma JanuaryFirst(y: int)
    ensures DayNumber(Date(y, 1, 1)) == YearStart(y)
  {
    YearStartIsJanuary(y);
  }

  /** First-Thursday rule: the week's Thursday is the week-th Thursday of the key's year. */
  lemma FirstThursdayRule(d: int)
    ensures var k, thursday := WeekOfDay(d), ThursdayOf(d);
      && DateOf(thursday).year == k.year
      && YearStart(k.year) + 7 * (k.week - 1) <= thursday < YearStart(k.year) + 7 * k.week
      && 1 <= k.week <= 53
  {
    var thursday := ThursdayOf(d);
    var y := DateOf(thursday).year;
    JanuaryFirst(y);
    YearBounds(thursday);
    YearLength(y);
  }

  /** Later weeks have later keys. */
  lemma LaterWeekLaterKey(c: int, d: int)
    requires Monday(c) < Monday(d)
    ensures Before(WeekOfDay(c), WeekOfDay(d))
  {
    ThursdayIsInTheWeek(c);
    ThursdayIsInTheWeek(d);
    ThursdaysApart(Monday(c) + 3, Monday(d) + 3);
    FirstThursdayRule(c);
    FirstThursdayRule(d);
    YearIsMonotone(ThursdayOf(c), ThursdayOf(d));
  }

  lemma ThursdaysApart(c: int, d: int)
    requires c < d && Weekday(c) == Weekday(d)
    ensures c + 7 <= d
  {
  }

  /** Two days get the same key exactly when they are in the same Monday-to-Sunday week. */
  lemma SameKeyExact(c: int, d: int)
    ensures WeekOfDay(c) == WeekOfDay(d) <==> Monday(c) == Monday(d)
  {
    if Monday(c) < Monday(d) {
      LaterWeekLaterKey(c, d);
    } else if Monday(d) < Monday(c) {
      LaterWeekLaterKey(d, c);
    } else {
      ThursdayIsInTheWeek(c);
      ThursdayIsInTheWeek(d);
    }
  }

  lemma MondayIsMonotone(c: int, d: int)
    requires c <= d
    ensures Monday(c) <= Monday(d)
  {
    if Monday(d) < Monday(c) {
      ThursdayIsInTheWeek(c);
      ThursdayIsInTheWeek(d);
      ThursdaysApart(Monday(d), Monday(c));
    }
  }

  /** Keys never go back as days go on. */
  lemma KeysAreMonotone(c: int, d: int)
    requires c <= d
    ensures WeekOfDay(c) == WeekOfDay(d) || Before(WeekOfDay(c), WeekOfDay(d))
  {
    MondayIsMonotone(c, d);
    if Monday(c) == Monday(d) {
      SameKeyExact(c, d);
    } else {
      LaterWeekLaterKey(c, d);
    }
  }

  // ---- keys as text ----

  function Digit(n: int): char
    requires 0 <= n <= 9
  {
    ['0', '1', '2', '3', '4', '5', '6', '7', '8', '9'][n]
  }

  function PowerOfTen(width: nat): nat
  {
    if width == 0 then 1 else 10 * PowerOfTen(width - 1)
  }

  /** The last `width` decimal digits of n, padded with zeros. */
  function Padded(n: nat, width: nat): (s: string)
    ensures |s| == width
  {
    if width == 0 then [] else Padded(n / 10, width - 1) + [Digit(n % 10)]
  }

  predicate Fits(k: WeekKey)
  {
    1000 <= k.year <= 9999 && 0 <= k.week <= 99
  }

  /** `${year}-W${week}` with the week padded to two digits, for years of four digits. */
  function Render(k: WeekKey): string
    requires Fits(k)
  {
    Padded(k.year, 4) + "-W" + Padded(k.week, 2)
  }

  /** Text order: at the first difference the smaller character comes first. */
  predicate TextBefore(a: string, b: string)
  {
    if a == [] || b == [] then a == [] && b != []
    else a[0] < b[0] || (a[0] == b[0] && TextBefore(a[1..], b[1..]))
  }

  lemma {:induction false} OrderSurvivesSuffix(a: string, b: string, c: string, d: string)
    requires |a| == |b| && TextBefore(a, b)
    ensures TextBefore(a + c, b + d)
  {
    assert (a + c)[1..] == a[1..] + c && (b + d)[1..] == b[1..] + d;
    if a[0] == b[0] {
      OrderSurvivesSuffix(a[1..], b[1..], c, d);
    }
  }

  lemma {:induction false} OrderAfterPrefix(a: string, c: string, d: string)
    requires TextBefore(c, d)
    ensures TextBefore(a + c, a + d)
  {
    if a == [] {
      assert a + c == c && a + d == d;
    } else {
      assert (a + c)[1..] == a[1..] + c && (a + d)[1..] == a[1..] + d;
      OrderAfterPrefix(a[1..], c, d);
    }
  }

  lemma {:induction false} PaddedOrder(m: nat, n: nat, width: nat)
    requires m < n < PowerOfTen(width)
    ensures TextBefore(Padded(m, width), Padded(n, width))
  {
    if m / 10 < n / 10 {
      PaddedOrder(m / 10, n / 10, width - 1);
      OrderSurvivesSuffix(Padded(m / 10, width - 1), Padded(n / 10, width - 1), [Digit(m % 10)], [Digit(n % 10)]);
    } else {
      OrderAfterPrefix(Padded(m / 10, width - 1), [Digit(m % 10)], [Digit(n % 10)]);
    }
  }

  /** Sorting the keys as text sorts the weeks. */
  lemma TextOrderIsWeekOrder(a: WeekKey, b: WeekKey)
    requires Fits(a) && Fits(b) && Before(a, b)
    ensures TextBefore(Render(a), Render(b))
  {
    assert PowerOfTen(2) == 100 && PowerOfTen(4) == 10_000;
    if a.year < b.year {
      PaddedOrder(a.year, b.year, 4);
      OrderSurvivesSuffix(Padded(a.year, 4), Padded(b.year, 4), "-W" + Padded(a.week, 2), "-W" + Padded(b.week, 2));
    } else {
      PaddedOrder(a.week, b.week, 2);
      OrderAfterPrefix(Padded(a.year, 4) + "-W", Padded(a.week, 2), Padded(b.week, 2));
    }
    assert Render(a) == Padded(a.year, 4) + ("-W" + Padded(a.week, 2));
    assert Render(b) == Padded(b.year, 4) + ("-W" + Padded(b.week, 2));
  }
}

/** The revenue charts of the dashboards: one amount per day, folded into weeks. */
module RevenueTrend {
  import opened Calendar
  import opened Timezones
  import opened WeekKeys
  import opened Buckets

  datatype Row = Row(createdAt: int, amount: int)

  /** setUTCDate(getUTCDate() - n) */
  function DaysEarlier(t: int, n: int): int
  {
    var date := DateOf(t / DAY);
    MakeDay(date.year, date.month, date.day - n) * DAY + t % DAY
  }

  lemma DaysEarlierExact(t: int, n: int)
    ensures DaysEarlier(t, n) == t - n * DAY
  {
    DateOfRoundTrip(t / DAY);
    DayAndRest(t);
  }

  function DayEntries(rows: seq<Row>, offset: Offset): (es: seq<Entry<Date>>)
    ensures |es| == |rows|
  {
    seq(|rows|, i requires 0 <= i < |rows| => Entry(DateKey(rows[i].createdAt, offset), rows[i].amount))
  }

  /** The last `days` calendar days, today last; days are numbered on the zone's clock. */
  function Window(today: int, days: nat): (ks: seq<Date>)
    ensures |ks| == days
  {
    seq(days, i => DateOf(today - days + 1 + i))
  }

  function Trend(rows: seq<Row>, days: nat, today: int, offset: Offset): seq<Entry<Date>>
  {
    SumsAt(DayEntries(rows, offset), Window(today, days))
  }

  /** The clock shows a year that Date.UTC takes at face value. */
  predicate ModernClock(now: int, offset: Offset)
  {
    Plausible(offset) && DateKey(now, offset).year > 100
  }

  lemma KeyAtMidnight(d: int, offset: Offset)
    ensures DateKey(d * DAY - offset, offset) == DateOf(d)
  {
  }

  lemma StartOfToday(now: int, offset: Offset)
    requires ModernClock(now, offset)
    ensures StartOfDay(DateKey(now, offset), offset) == (now + offset) / DAY * DAY - offset
  {
    DateOfRoundTrip((now + offset) / DAY);
    DayStart(DateKey(now, offset), offset);
  }

  lemma KeyOfDaysEarlier(midnight: int, d: int, offset: Offset, n: int)
    requires midnight == d * DAY - offset
    ensures DateKey(DaysEarlier(midnight, n), offset) == DateOf(d - n)
  {
    assert DaysEarlier(midnight, n) == (d - n) * DAY - offset by { DaysEarlierExact(midnight, n); }
    KeyAtMidnight(d - n, offset);
  }

  lemma DifferentDays(c: int, d: int)
    requires c != d
    ensures DateOf(c) != DateOf(d)
  {
    DateOfRoundTrip(c);
    DateOfRoundTrip(d);
  }

  lemma WindowIsDistinct(today: int, days: nat)
    ensures Distinct(Window(today, days))
  {
    var ks := Window(today, days);
    forall i, j | 0 <= i < j < days ensures ks[i] != ks[j] {
      DifferentDays(today - days + 1 + i, today - days + 1 + j);
    }
  }

  lemma InWindowExact(d: int, today: int, days: nat)
    ensures DateOf(d) in Window(today, days) <==> today - days < d <= today
  {
    var dates, first := Window(today, days), today - days + 1;
    if first <= d <= today {
      assert dates[d - first] == DateOf(first + (d - first));
    } else {
      forall i | 0 <= i < days ensures dates[i] != DateOf(d) {
        DifferentDays(first + i, d);
      }
    }
  }

  /** The first loop: one key per day, oldest first, nothing counted yet. */
  method EmptyDays(midnight: int, days: int, ghost today: int, offset: Offset)
    returns (keys: seq<Date>, trendMap: map<Date, int>)
    requires midnight == today * DAY - offset
    ensures keys == Window(today, if days < 0 then 0 else days)
    ensures trendMap == map k | k in keys :: 0
  {
    ghost var window := Window(today, if days < 0 then 0 else days);
    keys, trendMap := [], map[];
    var back := days - 1;
    while back >= 0
      invariant |keys| == days - 1 - back || (days <= 0 && keys == [] && back < 0)
      invariant keys <= window
      invariant trendMap == map k | k in keys :: 0
    {
      KeyOfDaysEarlier(midnight, today, offset, back);
      WindowIsDistinct(today, days);
      var key := DateKey(DaysEarlier(midnight, back), offset);
      assert key == window[|keys|];
      assert key !in keys;
      if key !in trendMap {
        keys := keys + [key];
      }
      trendMap := trendMap[key := 0];
      back := back - 1;
    }
  }

  method BuildRevenueTrend(rows: seq<Row>, days: int, now: int, offset: Offset) returns (points: seq<Entry<Date>>)
    requires ModernClock(now, offset)
    ensures points == Trend(rows, if days < 0 then 0 else days, (now + offset) / DAY, offset)
  {
    ghost var d, n: nat := (now + offset) / DAY, if days < 0 then 0 else days;
    StartOfToday(now, offset);
    var today := StartOfDay(DateKey(now, offset), offset);
    var keys, trendMap := EmptyDays(today, days, d, offset);
    trendMap := AddRows(keys, trendMap, rows, offset);
    EntriesAreSums(DayEntries(rows, offset), keys, trendMap);
    points := EntriesOf(keys, trendMap);
  }

  /** The second loop: every row whose day has a key is added to it. */
  method AddRows(ghost keys: seq<Date>, empty: map<Date, int>, rows: seq<Row>, offset: Offset)
    returns (trendMap: map<Date, int>)
    requires empty == map k | k in keys :: 0
    ensures trendMap == map k | k in keys :: SumAt(DayEntries(rows, offset), k)
  {
    ghost var es := DayEntries(rows, offset);
    trendMap := empty;
    var i := 0;
    while i < |rows|
      invariant 0 <= i <= |rows|
      invariant trendMap == map k | k in keys :: SumAt(es[..i], k)
    {
      assert es[..i + 1][..i] == es[..i];
      var key := DateKey(rows[i].createdAt, offset);
      assert es[i].key == key;
      if key in trendMap {
        trendMap := trendMap[key := trendMap[key] + rows[i].amount];
      }
      i := i + 1;
    }
    assert es[..i] == es;
  }

  /** What came in from one instant up to, not including, another. */
  function Takings(rows: seq<Row>, from: int, to: int): int
  {
    if rows == [] then 0
    else
      var row := rows[|rows| - 1];
      Takings(rows[..|rows| - 1], from, to) + if from <= row.createdAt < to then row.amount else 0
  }

  lemma {:induction false} TakingsOfWindow(rows: seq<Row>, days: nat, today: int, offset: Offset)
    ensures TotalWithin(DayEntries(rows, offset), Window(today, days))
         == Takings(rows, (today - days + 1) * DAY - offset, (today + 1) * DAY - offset)
  {
    if rows != [] {
      var init, row := rows[..|rows| - 1], rows[|rows| - 1];
      TakingsOfWindow(init, days, today, offset);
      assert DayEntries(rows, offset)[..|rows| - 1] == DayEntries(init, offset);
      InWindowExact((row.createdAt + offset) / DAY, today, days);
      DayAndRest(row.createdAt + offset);
    }
  }

  /** The points of the trend add up to exactly what came in from the first day's midnight to the one after today. */
  lemma TrendConserves(rows: seq<Row>, days: nat, today: int, offset: Offset)
    ensures Total(Trend(rows, days, today, offset))
         == Takings(rows, (today - days + 1) * DAY - offset, (today + 1) * DAY - offset)
  {
    WindowIsDistinct(today, days);
    SumsAreExact(DayEntries(rows, offset), Window(today, days));
    TakingsOfWindow(rows, days, today, offset);
  }

  lemma {:induction false} TakingsOfDay(rows: seq<Row>, d: int, offset: Offset)
    ensures SumAt(DayEntries(rows, offset), DateOf(d)) == Takings(rows, d * DAY - offset, (d + 1) * DAY - offset)
  {
    if rows != [] {
      var init, row := rows[..|rows| - 1], rows[|rows| - 1];
      TakingsOfDay(init, d, offset);
      assert DayEntries(rows, offset)[..|rows| - 1] == DayEntries(init, offset);
      OnDay(row.createdAt, d, offset);
    }
  }

  lemma OnDay(t: int, d: int, offset: Offset)
    ensures DateKey(t, offset) == DateOf(d) <==> d * DAY - offset <= t < (d + 1) * DAY - offset
  {
    if (t + offset) / DAY != d {
      DifferentDays((t + offset) / DAY, d);
    }
    DayAndRest(t + offset);
  }

  /** Point i of the trend is the i-th day of the window, oldest first, with exactly what came in on it. */
  lemma PointExact(rows: seq<Row>, days: nat, today: int, offset: Offset, i: nat)
    requires i < days
    ensures |Trend(rows, days, today, offset)| == days
    ensures var d := today - days + 1 + i;
      Trend(rows, days, today, offset)[i]
      == Entry(DateOf(d), Takings(rows, d * DAY - offset, (d + 1) * DAY - offset))
  {
    TakingsOfDay(rows, today - days + 1 + i, offset);
    assert Trend(rows, days, today, offset)[i].key == Window(today, days)[i];
  }

  lemma StartOfDate(d: int, offset: Offset)
    requires Plausible(offset) && DateOf(d).year > 100
    ensures StartOfDay(DateOf(d), offset) == d * DAY - offset
  {
    DateOfRoundTrip(d);
    DayStart(DateOf(d), offset);
  }

  lemma MidnightAfter(d: int, offset: Offset)
    requires Plausible(offset) && DateOf(d + 1).year > 100
    ensures StartOfDay(NextDay(DateOf(d)), offset) == (d + 1) * DAY - offset
  {
    assert NextDay(DateOf(d)) == DateOf(d + 1) by {
      DateOfRoundTrip(d);
      NextDate(DateOf(d), d);
    }
    StartOfDate(d + 1, offset);
  }

  lemma WindowEnds(today: int, days: nat)
    requires days > 0
    ensures Window(today, days)[0] == DateOf(today - days + 1) && Window(today, days)[days - 1] == DateOf(today)
  {
    assert today - days + 1 + (days - 1) == today;
  }

  lemma FirstMidnight(today: int, days: nat, offset: Offset)
    requires Plausible(offset) && days > 0 && DateOf(today - days + 1).year > 100
    ensures StartOfDay(Window(today, days)[0], offset) == (today - days + 1) * DAY - offset
  {
    WindowEnds(today, days);
    StartOfDate(today - days + 1, offset);
  }

  lemma LastMidnight(today: int, days: nat, offset: Offset)
    requires Plausible(offset) && days > 0 && DateOf(today - days + 1).year > 100
    ensures StartOfDay(NextDay(Window(today, days)[days - 1]), offset) == (today + 1) * DAY - offset
  {
    WindowEnds(today, days);
    YearIsMonotone(today - days + 1, today + 1);
    MidnightAfter(today, offset);
  }

  /** Those two instants are the computed starts of the window's first day and of the day after its last. */
  lemma WindowBounds(today: int, days: nat, offset: Offset)
    requires Plausible(offset) && days > 0 && DateOf(today - days + 1).year > 100
    ensures StartOfDay(Window(today, days)[0], offset) == (today - days + 1) * DAY - offset
    ensures StartOfDay(NextDay(Window(today, days)[days - 1]), offset) == (today + 1) * DAY - offset
  {
    FirstMidnight(today, days, offset);
    LastMidnight(today, days, offset);
  }

  // ---- weeks ----

  /** The points with another key each. */
  function Rekeyed<K>(points: seq<Entry<Date>>, key: Date -> K): (es: seq<Entry<K>>)
    ensures |es| == |points|
  {
    seq(|points|, i requires 0 <= i < |points| => Entry(key(points[i].key), points[i].amount))
  }

  function WeekEntries(points: seq<Entry<Date>>): seq<Entry<WeekKey>>
  {
    Rekeyed(points, WeekOf)
  }

  /** The weekly fold, before its entries are sorted by key. */
  method WeeklyTrend(points: seq<Entry<Date>>) returns (weeks: seq<Entry<WeekKey>>)
    ensures weeks == Fold(WeekEntries(points))
  {
    ghost var es := WeekEntries(points);
    var keys: seq<WeekKey> := [];
    var weeklyBuckets: map<WeekKey, int> := map[];
    var i := 0;
    while i < |points|
      invariant 0 <= i <= |points|
      invariant keys == FirstSeen(es[..i])
      invariant forall k :: k in weeklyBuckets <==> k in keys
      invariant forall k :: SumAt(es[..i], k) == if k in weeklyBuckets then weeklyBuckets[k] else 0
    {
      assert es[..i + 1][..i] == es[..i];
      var key := WeekOf(points[i].key);
      if key !in weeklyBuckets {
        keys := keys + [key];
      }
      var sofar := if key in weeklyBuckets then weeklyBuckets[key] else 0;
      weeklyBuckets := weeklyBuckets[key := sofar + points[i].amount];
      i := i + 1;
    }
    assert es[..i] == es;
    EntriesAreSums(es, keys, weeklyBuckets);
    weeks := EntriesOf(keys, weeklyBuckets);
  }

  lemma {:induction false} RekeyedTotal<K>(points: seq<Entry<Date>>, key: Date -> K)
    ensures Total(Rekeyed(points, key)) == Total(points)
  {
    if points != [] {
      RekeyedTotal(points[..|points| - 1], key);
      assert Rekeyed(points, key)[..|points| - 1] == Rekeyed(points[..|points| - 1], key);
    }
  }

  lemma RekeyedAscends<K>(points: seq<Entry<Date>>, key: Date -> K, before: (K, K) -> bool)
    requires forall i, j :: 0 <= i < j < |points| ==>
      key(points[i].key) == key(points[j].key) || before(key(points[i].key), key(points[j].key))
    ensures Ascending(Rekeyed(points, key), before)
  {
  }

  lemma WeeksOfDates(x: Date, c: int, y: Date, d: int)
    requires c <= d && x == DateOf(c) && y == DateOf(d)
    ensures WeekOf(x) == WeekOf(y) || Before(WeekOf(x), WeekOf(y))
  {
    assert DayNumber(x) == c by { DateOfRoundTrip(c); }
    assert DayNumber(y) == d by { DateOfRoundTrip(d); }
    KeysAreMonotone(c, d);
  }

  lemma TrendDate(rows: seq<Row>, days: nat, today: int, offset: Offset, i: nat)
    requires i < days
    ensures |Trend(rows, days, today, offset)| == days
    ensures Trend(rows, days, today, offset)[i].key == DateOf(today - days + 1 + i)
  {
    assert Trend(rows, days, today, offset)[i].key == Window(today, days)[i];
  }

  lemma WeeksAscend(rows: seq<Row>, days: nat, today: int, offset: Offset)
    ensures Ascending(WeekEntries(Trend(rows, days, today, offset)), Before)
  {
    var points, first := Trend(rows, days, today, offset), today - days + 1;
    forall i, j | 0 <= i < j < |points|
      ensures WeekOf(points[i].key) == WeekOf(points[j].key) || Before(WeekOf(points[i].key), WeekOf(points[j].key))
    {
      TrendDate(rows, days, today, offset, i);
      TrendDate(rows, days, today, offset, j);
      WeeksOfDates(points[i].key, first + i, points[j].key, first + j);
    }
    RekeyedAscends(points, WeekOf, Before);
  }

  /** The weekly chart shows the total of the daily one, and its weeks are already in order. */
  lemma WeeklyTrendIsFaithful(rows: seq<Row>, days: nat, today: int, offset: Offset)
    ensures var points := Trend(rows, days, today, offset);
      && Total(Fold(WeekEntries(points))) == Total(points)
      && StrictlyAscending(FirstSeen(WeekEntries(points)), Before)
  {
    var points := Trend(rows, days, today, offset);
    FoldConserves(WeekEntries(points));
    RekeyedTotal(points, WeekOf);
    WeeksAscend(rows, days, today, offset);
    OrderIsKept(WeekEntries(points), Before);
  }

  /** What the points of one Monday-to-Sunday week add up to. */
  function WeekTotal(points: seq<Entry<Date>>, monday: int): int
  {
    if points == [] then 0
    else
      var p := points[|points| - 1];
      WeekTotal(points[..|points| - 1], monday) + if monday <= DayNumber(p.key) < monday + 7 then p.amount else 0
  }

  lemma {:induction false} WeekSum(points: seq<Entry<Date>>, d: int)
    ensures SumAt(WeekEntries(points), WeekOfDay(d)) == WeekTotal(points, Monday(d))
  {
    if points != [] {
      WeekSum(points[..|points| - 1], d);
      assert WeekEntries(points)[..|points| - 1] == WeekEntries(points[..|points| - 1]);
      InWeek(points[|points| - 1].key, d);
    }
  }

  lemma InWeek(x: Date, d: int)
    ensures WeekOf(x) == WeekOfDay(d) <==> Monday(d) <= DayNumber(x) < Monday(d) + 7
  {
    SameKeyExact(DayNumber(x), d);
    ThursdayIsInTheWeek(DayNumber(x));
    ThursdayIsInTheWeek(d);
    MondaysApart(DayNumber(x), d);
  }

  lemma MondaysApart(c: int, d: int)
    ensures Monday(c) == Monday(d) <==> Monday(d) <= c < Monday(d) + 7
  {
  }

  /** The weekly chart has exactly the weeks of the points, and each shows the sum of its days. */
  lemma WeekExact(points: seq<Entry<Date>>, i: nat)
    requires i < |points|
    ensures var d := DayNumber(points[i].key);
      Entry(WeekOfDay(d), WeekTotal(points, Monday(d))) in Fold(WeekEntries(points))
  {
    var es, d := WeekEntries(points), DayNumber(points[i].key);
    FirstSeenExact(es);
    assert es[i].key == WeekOf(points[i].key) == WeekOfDay(d);
    var j :| 0 <= j < |FirstSeen(es)| && FirstSeen(es)[j] == WeekOfDay(d);
    WeekSum(points, d);
    assert Fold(es)[j] == Entry(WeekOfDay(d), WeekTotal(points, Monday(d)));
  }

  /** In years of four digits the printed weeks of the weekly chart are in strict text order: nothing is left to do. */
  lemma SortHasNothingToDo(rows: seq<Row>, days: nat, today: int, offset: Offset)
    requires var weeks := FirstSeen(WeekEntries(Trend(rows, days, today, offset)));
      forall k :: k in weeks ==> 1000 <= k.year <= 9999
    ensures var weeks := Fold(WeekEntries(Trend(rows, days, today, offset)));
      && (forall i :: 0 <= i < |weeks| ==> Fits(weeks[i].key))
      && (forall i, j :: 0 <= i < j < |weeks| ==> TextBefore(Render(weeks[i].key), Render(weeks[j].key)))
  {
    var points := Trend(rows, days, today, offset);
    var es := WeekEntries(points);
    var weeks, ks := Fold(es), FirstSeen(es);
    WeeklyTrendIsFaithful(rows, days, today, offset);
    FirstSeenExact(es);
    forall i | 0 <= i < |weeks| ensures weeks[i].key == ks[i] && Fits(ks[i]) {
      assert ks[i] in ks;
      var j :| 0 <= j < |es| && es[j].key == ks[i];
      WeekFits(points, j);
    }
    forall i, j | 0 <= i < j < |weeks| ensures TextBefore(Render(weeks[i].key), Render(weeks[j].key)) {
      TextOrderIsWeekOrder(ks[i], ks[j]);
    }
  }

  lemma WeekFits(points: seq<Entry<Date>>, i: nat)
    requires i < |points| && 1000 <= WeekEntries(points)[i].key.year <= 9999
    ensures Fits(WeekEntries(points)[i].key)
  {
    assert WeekEntries(points)[i].key == WeekOf(points[i].key);
    FirstThursdayRule(DayNumber(points[i].key));
  }
}

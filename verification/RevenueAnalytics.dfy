/** getRevenueAnalytics: paid transactions grouped by day, week or month, and within each by plan. */
module RevenueAnalytics {
  import opened Calendar
  import opened Options
  import opened Plans
  import opened Timezones
  import opened WeekKeys
  import opened Buckets

  datatype GroupBy = ByDay | ByWeek | ByMonth

  datatype Period = DayOf(date: Date) | WeekIn(key: WeekKey) | MonthIn(year: int, month: int)

  /** A paid transaction with its organization's plan, if there is one. */
  datatype Row = Row(createdAt: int, org: nat, pricePaid: int, planType: Option<Plan>)

  datatype Part = FreePart | ProPart | EnterprisePart

  /** Which of a bucket's three parts a row counts into: anything but PRO and ENTERPRISE is free. */
  function PartOf(planType: Option<Plan>): Part
  {
    match planType
    case Some(Pro) => ProPart
    case Some(Enterprise) => EnterprisePart
    case _ => FreePart
  }

  datatype Bucket = Bucket(
    period: Period, revenue: int, transactionCount: nat, organizations: set<nat>, free: int, pro: int, enterprise: int)

  function PeriodOf(t: int, unit: GroupBy, offset: Offset): Period
  {
    PeriodOn(DateKey(t, offset), unit)
  }

  function PeriodOn(date: Date, unit: GroupBy): Period
  {
    match unit
    case ByDay => DayOf(date)
    case ByWeek => WeekIn(WeekOf(date))
    case ByMonth => MonthIn(date.year, date.month)
  }

  // ---- what the buckets should hold ----

  function RevenueEntries(rows: seq<Row>, unit: GroupBy, offset: Offset): (es: seq<Entry<Period>>)
    ensures |es| == |rows|
  {
    seq(|rows|, i requires 0 <= i < |rows| => Entry(PeriodOf(rows[i].createdAt, unit, offset), rows[i].pricePaid))
  }

  /** The rows of one period. */
  function RowsIn(rows: seq<Row>, p: Period, unit: GroupBy, offset: Offset): seq<Row>
  {
    if rows == [] then []
    else
      RowsIn(rows[..|rows| - 1], p, unit, offset) +
      if PeriodOf(rows[|rows| - 1].createdAt, unit, offset) == p then [rows[|rows| - 1]] else []
  }

  function Revenue(rows: seq<Row>): int
  {
    if rows == [] then 0 else Revenue(rows[..|rows| - 1]) + rows[|rows| - 1].pricePaid
  }

  function PartRevenue(rows: seq<Row>, part: Part): int
  {
    if rows == [] then 0
    else
      var row := rows[|rows| - 1];
      PartRevenue(rows[..|rows| - 1], part) + if PartOf(row.planType) == part then row.pricePaid else 0
  }

  function Organizations(rows: seq<Row>): set<nat>
  {
    set i | 0 <= i < |rows| :: rows[i].org
  }

  function Summary(p: Period, rows: seq<Row>): Bucket
  {
    Bucket(p, Revenue(rows), |rows|, Organizations(rows),
           PartRevenue(rows, FreePart), PartRevenue(rows, ProPart), PartRevenue(rows, EnterprisePart))
  }

  function Periods(rows: seq<Row>, unit: GroupBy, offset: Offset): seq<Period>
  {
    FirstSeen(RevenueEntries(rows, unit, offset))
  }

  /** One bucket for each period that has rows, in the order of their first row. */
  function Grouped(rows: seq<Row>, unit: GroupBy, offset: Offset): (buckets: seq<Bucket>)
    ensures |buckets| == |Periods(rows, unit, offset)|
  {
    var ps := Periods(rows, unit, offset);
    seq(|ps|, i requires 0 <= i < |ps| => Summary(ps[i], RowsIn(rows, ps[i], unit, offset)))
  }

  lemma SummaryOneMore(p: Period, rows: seq<Row>, row: Row)
    ensures var b, c := Summary(p, rows), Summary(p, rows + [row]);
      && c.revenue == b.revenue + row.pricePaid && c.transactionCount == b.transactionCount + 1
      && c.organizations == b.organizations + {row.org}
      && c.free == b.free + (if PartOf(row.planType) == FreePart then row.pricePaid else 0)
      && c.pro == b.pro + (if PartOf(row.planType) == ProPart then row.pricePaid else 0)
      && c.enterprise == b.enterprise + (if PartOf(row.planType) == EnterprisePart then row.pricePaid else 0)
  {
    var all := rows + [row];
    assert all[..|rows|] == rows;
    forall o ensures o in Organizations(all) <==> o in Organizations(rows) + {row.org} {
      if o in Organizations(rows) {
        var i :| 0 <= i < |rows| && rows[i].org == o;
        assert all[i].org == o;
      }
      if o == row.org {
        assert all[|rows|].org == o;
      }
    }
  }

  lemma PeriodsOneMore(rows: seq<Row>, i: nat, unit: GroupBy, offset: Offset)
    requires i < |rows|
    ensures var p, init := PeriodOf(rows[i].createdAt, unit, offset), Periods(rows[..i], unit, offset);
      Periods(rows[..i + 1], unit, offset) == if p in init then init else init + [p]
  {
    assert RevenueEntries(rows[..i + 1], unit, offset)[..i] == RevenueEntries(rows[..i], unit, offset);
  }

  lemma RowsInOneMore(rows: seq<Row>, i: nat, p: Period, unit: GroupBy, offset: Offset)
    requires i < |rows|
    ensures RowsIn(rows[..i + 1], p, unit, offset)
         == RowsIn(rows[..i], p, unit, offset)
          + if PeriodOf(rows[i].createdAt, unit, offset) == p then [rows[i]] else []
  {
    assert rows[..i + 1][..i] == rows[..i];
  }

  lemma {:induction false} NoRowsYet(rows: seq<Row>, p: Period, unit: GroupBy, offset: Offset)
    requires p !in Periods(rows, unit, offset)
    ensures RowsIn(rows, p, unit, offset) == []
  {
    if rows != [] {
      LastPeriod(rows, unit, offset);
      NoRowsYet(rows[..|rows| - 1], p, unit, offset);
    }
  }

  lemma LastPeriod(rows: seq<Row>, unit: GroupBy, offset: Offset)
    requires rows != []
    ensures PeriodOf(rows[|rows| - 1].createdAt, unit, offset) in Periods(rows, unit, offset)
    ensures forall p :: p in Periods(rows[..|rows| - 1], unit, offset) ==> p in Periods(rows, unit, offset)
  {
    assert rows[..|rows|] == rows;
    PeriodsOneMore(rows, |rows| - 1, unit, offset);
  }

  /** One row counted into its bucket. */
  method CountRow(before: Bucket, row: Row, ghost counted: seq<Row>) returns (bucket: Bucket)
    requires before == Summary(before.period, counted)
    ensures bucket == Summary(before.period, counted + [row])
  {
    SummaryOneMore(before.period, counted, row);
    bucket := before.(revenue := before.revenue + row.pricePaid, transactionCount := before.transactionCount + 1,
                      organizations := before.organizations + {row.org});
    if row.planType == Some(Pro) {
      bucket := bucket.(pro := bucket.pro + row.pricePaid);
    } else if row.planType == Some(Enterprise) {
      bucket := bucket.(enterprise := bucket.enterprise + row.pricePaid);
    } else {
      bucket := bucket.(free := bucket.free + row.pricePaid);
    }
  }

  /** The Map holds the summaries of the first i rows. */
  ghost predicate Holds(groupedMap: map<Period, Bucket>, rows: seq<Row>, i: nat, unit: GroupBy, offset: Offset)
    requires i <= |rows|
  {
    && (forall p :: p in groupedMap <==> p in Periods(rows[..i], unit, offset))
    && (forall p :: p in groupedMap ==> groupedMap[p] == Summary(p, RowsIn(rows[..i], p, unit, offset)))
  }

  lemma HoldsOneMore(before: map<Period, Bucket>, rows: seq<Row>, i: nat, bucket: Bucket, unit: GroupBy, offset: Offset)
    requires i < |rows| && Holds(before, rows, i, unit, offset)
    requires var p := PeriodOf(rows[i].createdAt, unit, offset);
      bucket == Summary(p, RowsIn(rows[..i], p, unit, offset) + [rows[i]])
    ensures Holds(before[PeriodOf(rows[i].createdAt, unit, offset) := bucket], rows, i + 1, unit, offset)
  {
    var key := PeriodOf(rows[i].createdAt, unit, offset);
    var after := before[key := bucket];
    PeriodsOneMore(rows, i, unit, offset);
    forall p | p in after ensures after[p] == Summary(p, RowsIn(rows[..i + 1], p, unit, offset)) {
      RowsInOneMore(rows, i, p, unit, offset);
      assert p != key ==> RowsIn(rows[..i + 1], p, unit, offset) == RowsIn(rows[..i], p, unit, offset);
    }
  }

  /** The body of the grouping loop. */
  method AddRow(
    periods: seq<Period>, groupedMap: map<Period, Bucket>, rows: seq<Row>, i: nat, unit: GroupBy, offset: Offset)
    returns (periods': seq<Period>, groupedMap': map<Period, Bucket>)
    requires i < |rows| && periods == Periods(rows[..i], unit, offset) && Holds(groupedMap, rows, i, unit, offset)
    ensures periods' == Periods(rows[..i + 1], unit, offset) && Holds(groupedMap', rows, i + 1, unit, offset)
  {
    var key := PeriodOf(rows[i].createdAt, unit, offset);
    PeriodsOneMore(rows, i, unit, offset);
    periods' := periods;
    var bucket := Bucket(key, 0, 0, {}, 0, 0, 0);
    if key in groupedMap {
      bucket := groupedMap[key];
    } else {
      NoRowsYet(rows[..i], key, unit, offset);
      periods' := periods + [key];
    }
    bucket := CountRow(bucket, rows[i], RowsIn(rows[..i], key, unit, offset));
    HoldsOneMore(groupedMap, rows, i, bucket, unit, offset);
    groupedMap' := groupedMap[key := bucket];
  }

  /** The grouping loop, before the buckets are sorted by key. */
  method GroupRevenue(rows: seq<Row>, unit: GroupBy, offset: Offset) returns (grouped: seq<Bucket>)
    ensures grouped == Grouped(rows, unit, offset)
  {
    var periods: seq<Period> := [];
    var groupedMap: map<Period, Bucket> := map[];
    var i := 0;
    while i < |rows|
      invariant 0 <= i <= |rows|
      invariant periods == Periods(rows[..i], unit, offset)
      invariant Holds(groupedMap, rows, i, unit, offset)
    {
      periods, groupedMap := AddRow(periods, groupedMap, rows, i, unit, offset);
      i := i + 1;
    }
    assert rows[..i] == rows;
    grouped := InOrder(periods, groupedMap);
  }

  /** Array.from(groupedMap.values()) */
  function InOrder(periods: seq<Period>, groupedMap: map<Period, Bucket>): (buckets: seq<Bucket>)
    requires forall p :: p in periods ==> p in groupedMap
    ensures |buckets| == |periods| && forall i :: 0 <= i < |periods| ==> buckets[i] == groupedMap[periods[i]]
  {
    seq(|periods|, i requires 0 <= i < |periods| => groupedMap[periods[i]])
  }

  // ---- what the buckets add up to ----

  lemma {:induction false} PartsAddUp(rows: seq<Row>)
    ensures Revenue(rows)
         == PartRevenue(rows, FreePart) + PartRevenue(rows, ProPart) + PartRevenue(rows, EnterprisePart)
  {
    if rows != [] {
      PartsAddUp(rows[..|rows| - 1]);
    }
  }

  /** Each bucket's revenue is the sum of its three parts, and it counts at least one transaction. */
  lemma BucketsSplit(rows: seq<Row>, unit: GroupBy, offset: Offset)
    ensures forall b :: b in Grouped(rows, unit, offset) ==>
      b.revenue == b.free + b.pro + b.enterprise && 1 <= |b.organizations| <= b.transactionCount
  {
    var ps, es := Periods(rows, unit, offset), RevenueEntries(rows, unit, offset);
    FirstSeenExact(es);
    forall i | 0 <= i < |ps|
      ensures var b := Grouped(rows, unit, offset)[i];
        b.revenue == b.free + b.pro + b.enterprise && 1 <= |b.organizations| <= b.transactionCount
    {
      assert ps[i] in FirstSeen(es);
      var k :| 0 <= k < |es| && es[k].key == ps[i];
      RowIsIn(rows, k, unit, offset);
      PartsAddUp(RowsIn(rows, ps[i], unit, offset));
      OrganizationsBound(RowsIn(rows, ps[i], unit, offset));
    }
  }

  lemma {:induction false} RowIsIn(rows: seq<Row>, k: nat, unit: GroupBy, offset: Offset)
    requires k < |rows|
    ensures rows[k] in RowsIn(rows, PeriodOf(rows[k].createdAt, unit, offset), unit, offset)
  {
    if k < |rows| - 1 {
      RowIsIn(rows[..|rows| - 1], k, unit, offset);
    }
  }

  lemma {:induction false} OrganizationsBound(rows: seq<Row>)
    ensures |Organizations(rows)| <= |rows|
    ensures rows != [] ==> |Organizations(rows)| >= 1
  {
    if rows == [] {
      assert Organizations(rows) == {};
    } else {
      var init, row := rows[..|rows| - 1], rows[|rows| - 1];
      OrganizationsBound(init);
      SummaryOneMore(DayOf(Date(0, 1, 1)), init, row);
      assert rows == init + [row];
      assert row.org in Organizations(rows);
    }
  }

  function TotalRevenue(buckets: seq<Bucket>): int
  {
    if buckets == [] then 0 else TotalRevenue(buckets[..|buckets| - 1]) + buckets[|buckets| - 1].revenue
  }

  lemma {:induction false} RevenueIsSum(rows: seq<Row>, p: Period, unit: GroupBy, offset: Offset)
    ensures Revenue(RowsIn(rows, p, unit, offset)) == SumAt(RevenueEntries(rows, unit, offset), p)
  {
    if rows != [] {
      var init, rest := rows[..|rows| - 1], RowsIn(rows[..|rows| - 1], p, unit, offset);
      RevenueIsSum(init, p, unit, offset);
      assert RevenueEntries(rows, unit, offset)[..|rows| - 1] == RevenueEntries(init, unit, offset);
      var all := RowsIn(rows, p, unit, offset);
      if PeriodOf(rows[|rows| - 1].createdAt, unit, offset) == p {
        assert all == rest + [rows[|rows| - 1]] && all[..|all| - 1] == rest;
      } else {
        assert all == rest;
      }
    }
  }

  lemma {:induction false} TotalIsTotal(buckets: seq<Bucket>, es: seq<Entry<Period>>)
    requires |buckets| == |es| && forall i :: 0 <= i < |es| ==> es[i].amount == buckets[i].revenue
    ensures TotalRevenue(buckets) == Total(es)
  {
    if es != [] {
      TotalIsTotal(buckets[..|es| - 1], es[..|es| - 1]);
    }
  }

  lemma {:induction false} EntriesTotal(rows: seq<Row>, unit: GroupBy, offset: Offset)
    ensures Total(RevenueEntries(rows, unit, offset)) == Revenue(rows)
  {
    if rows != [] {
      EntriesTotal(rows[..|rows| - 1], unit, offset);
      assert RevenueEntries(rows, unit, offset)[..|rows| - 1] == RevenueEntries(rows[..|rows| - 1], unit, offset);
    }
  }

  /** The buckets add up to all rows, whatever the grouping. */
  lemma BucketsConserve(rows: seq<Row>, unit: GroupBy, offset: Offset)
    ensures TotalRevenue(Grouped(rows, unit, offset)) == Revenue(rows)
  {
    var es := RevenueEntries(rows, unit, offset);
    forall i | 0 <= i < |Periods(rows, unit, offset)|
      ensures Fold(es)[i].amount == Grouped(rows, unit, offset)[i].revenue
    {
      RevenueIsSum(rows, Periods(rows, unit, offset)[i], unit, offset);
    }
    TotalIsTotal(Grouped(rows, unit, offset), Fold(es));
    FoldConserves(es);
    EntriesTotal(rows, unit, offset);
  }

  // ---- what one bucket holds ----

  /** The amounts of the rows of a period that `chosen` picks. */
  function Picked(rows: seq<Row>, p: Period, unit: GroupBy, offset: Offset, chosen: Row -> bool): int
  {
    if rows == [] then 0
    else
      var row := rows[|rows| - 1];
      Picked(rows[..|rows| - 1], p, unit, offset, chosen)
      + if PeriodOf(row.createdAt, unit, offset) == p && chosen(row) then row.pricePaid else 0
  }

  lemma {:induction false} PartIsPicked(rows: seq<Row>, p: Period, unit: GroupBy, offset: Offset, part: Part)
    ensures PartRevenue(RowsIn(rows, p, unit, offset), part)
         == Picked(rows, p, unit, offset, (row: Row) => PartOf(row.planType) == part)
  {
    if rows != [] {
      var init, row := rows[..|rows| - 1], rows[|rows| - 1];
      PartIsPicked(init, p, unit, offset, part);
      LastRowIn(rows, p, unit, offset);
      PartOneMore(RowsIn(init, p, unit, offset), row, part);
    }
  }

  lemma LastRowIn(rows: seq<Row>, p: Period, unit: GroupBy, offset: Offset)
    requires rows != []
    ensures var rest, row := RowsIn(rows[..|rows| - 1], p, unit, offset), rows[|rows| - 1];
      RowsIn(rows, p, unit, offset) == if PeriodOf(row.createdAt, unit, offset) == p then rest + [row] else rest
  {
  }

  lemma PartOneMore(rest: seq<Row>, row: Row, part: Part)
    ensures PartRevenue(rest + [row], part)
         == PartRevenue(rest, part) + if PartOf(row.planType) == part then row.pricePaid else 0
  {
    assert (rest + [row])[..|rest|] == rest;
  }

  lemma {:induction false} PickedAgrees(
    rows: seq<Row>, p: Period, unit: GroupBy, offset: Offset, one: Row -> bool, two: Row -> bool)
    requires forall row :: one(row) == two(row)
    ensures Picked(rows, p, unit, offset, one) == Picked(rows, p, unit, offset, two)
  {
    if rows != [] {
      PickedAgrees(rows[..|rows| - 1], p, unit, offset, one, two);
    }
  }

  function IsPro(): Row -> bool
  {
    (row: Row) => row.planType == Some(Pro)
  }

  function IsEnterprise(): Row -> bool
  {
    (row: Row) => row.planType == Some(Enterprise)
  }

  /** A bucket holds the rows of its period and no others: its PRO and ENTERPRISE parts are the amounts of the rows of
      organizations on those plans, the free part those of all others. */
  lemma BucketExact(rows: seq<Row>, unit: GroupBy, offset: Offset, i: nat)
    requires i < |Grouped(rows, unit, offset)|
    ensures var b := Grouped(rows, unit, offset)[i];
      && b.pro == Picked(rows, b.period, unit, offset, IsPro())
      && b.enterprise == Picked(rows, b.period, unit, offset, IsEnterprise())
      && b.free == Picked(rows, b.period, unit, offset, (row: Row) => !IsPro()(row) && !IsEnterprise()(row))
      && b.revenue == SumAt(RevenueEntries(rows, unit, offset), b.period)
      && b.transactionCount == |RowsIn(rows, b.period, unit, offset)|
      && b.organizations == Organizations(RowsIn(rows, b.period, unit, offset))
  {
    var p := Periods(rows, unit, offset)[i];
    RevenueIsSum(rows, p, unit, offset);
    PartIsPicked(rows, p, unit, offset, ProPart);
    PickedAgrees(rows, p, unit, offset, (row: Row) => PartOf(row.planType) == ProPart, IsPro());
    PartIsPicked(rows, p, unit, offset, EnterprisePart);
    PickedAgrees(rows, p, unit, offset, (row: Row) => PartOf(row.planType) == EnterprisePart, IsEnterprise());
    PartIsPicked(rows, p, unit, offset, FreePart);
    PickedAgrees(rows, p, unit, offset, (row: Row) => PartOf(row.planType) == FreePart,
                 (row: Row) => !IsPro()(row) && !IsEnterprise()(row));
  }

  /** Where the rows of a period are. */
  function Places(rows: seq<Row>, p: Period, unit: GroupBy, offset: Offset): set<int>
  {
    set i | 0 <= i < |rows| && PeriodOf(rows[i].createdAt, unit, offset) == p
  }

  lemma PlacesOneMore(rows: seq<Row>, p: Period, unit: GroupBy, offset: Offset)
    requires rows != []
    ensures var n, init := |rows| - 1, Places(rows[..|rows| - 1], p, unit, offset);
      && n !in init
      && Places(rows, p, unit, offset) == if PeriodOf(rows[n].createdAt, unit, offset) == p then init + {n} else init
  {
  }

  /** A bucket counts exactly the rows of its period. */
  lemma {:induction false} CountExact(rows: seq<Row>, p: Period, unit: GroupBy, offset: Offset)
    ensures |RowsIn(rows, p, unit, offset)| == |Places(rows, p, unit, offset)|
  {
    if rows != [] {
      CountExact(rows[..|rows| - 1], p, unit, offset);
      LastRowIn(rows, p, unit, offset);
      PlacesOneMore(rows, p, unit, offset);
    }
  }

  ghost predicate PaysIn(rows: seq<Row>, p: Period, unit: GroupBy, offset: Offset, org: nat)
  {
    exists i :: 0 <= i < |rows| && rows[i].org == org && PeriodOf(rows[i].createdAt, unit, offset) == p
  }

  /** Its organizations are exactly those that have a row in its period. */
  lemma {:induction false} OrganizationsExact(rows: seq<Row>, p: Period, unit: GroupBy, offset: Offset, org: nat)
    ensures org in Organizations(RowsIn(rows, p, unit, offset)) <==> PaysIn(rows, p, unit, offset, org)
  {
    if rows != [] {
      var init := rows[..|rows| - 1];
      OrganizationsExact(init, p, unit, offset, org);
      LastRowIn(rows, p, unit, offset);
      SummaryOneMore(p, RowsIn(init, p, unit, offset), rows[|rows| - 1]);
      PaysOneMore(rows, p, unit, offset, org);
    }
  }

  lemma PaysOneMore(rows: seq<Row>, p: Period, unit: GroupBy, offset: Offset, org: nat)
    requires rows != []
    ensures PaysIn(rows, p, unit, offset, org) <==>
      || PaysIn(rows[..|rows| - 1], p, unit, offset, org)
      || (rows[|rows| - 1].org == org && PeriodOf(rows[|rows| - 1].createdAt, unit, offset) == p)
  {
    if PaysIn(rows[..|rows| - 1], p, unit, offset, org) {
      var i :| 0 <= i < |rows| - 1 && rows[..|rows| - 1][i].org == org
            && PeriodOf(rows[..|rows| - 1][i].createdAt, unit, offset) == p;
      assert rows[i].org == org;
    }
    if PaysIn(rows, p, unit, offset, org) {
      var i :| 0 <= i < |rows| && rows[i].org == org && PeriodOf(rows[i].createdAt, unit, offset) == p;
      if i < |rows| - 1 {
        assert rows[..|rows| - 1][i].org == org;
      }
    }
  }

  // ---- when two instants share a period ----

  /** Two instants fall into the same bucket exactly when they are on the same day, in the same Monday-to-Sunday week,
      or in the same month of the zone's calendar. */
  lemma SamePeriodExact(s: int, t: int, unit: GroupBy, offset: Offset)
    ensures var c, d := (s + offset) / DAY, (t + offset) / DAY;
      PeriodOf(s, unit, offset) == PeriodOf(t, unit, offset) <==>
        match unit
        case ByDay => c == d
        case ByWeek => Monday(c) == Monday(d)
        case ByMonth => MonthOf(c) == MonthOf(d)
  {
    SamePeriodOfDays((s + offset) / DAY, (t + offset) / DAY, unit);
  }

  lemma SamePeriodOfDays(c: int, d: int, unit: GroupBy)
    ensures PeriodOn(DateOf(c), unit) == PeriodOn(DateOf(d), unit) <==>
      match unit
      case ByDay => c == d
      case ByWeek => Monday(c) == Monday(d)
      case ByMonth => MonthOf(c) == MonthOf(d)
  {
    assert DayNumber(DateOf(c)) == c by { DateOfRoundTrip(c); }
    assert DayNumber(DateOf(d)) == d by { DateOfRoundTrip(d); }
    match unit
    case ByDay =>
    case ByWeek => SameKeyExact(c, d);
    case ByMonth => IndexOrder(MonthOf(c), MonthOf(d));
  }

  // ---- their order ----

  predicate DateBefore(x: Date, y: Date)
  {
    x.year < y.year || (x.year == y.year && (x.month < y.month || (x.month == y.month && x.day < y.day)))
  }

  /** Later, among periods of the same kind. */
  predicate Earlier(p: Period, q: Period)
  {
    match (p, q)
    case (DayOf(x), DayOf(y)) => DateBefore(x, y)
    case (WeekIn(k), WeekIn(l)) => Before(k, l)
    case (MonthIn(y, m), MonthIn(z, n)) => y < z || (y == z && m < n)
    case _ => false
  }

  lemma MonthIsMonotone(c: int, d: int)
    requires c <= d
    ensures MonthOf(c) <= MonthOf(d)
  {
    var found, index := MonthOf(d), MonthOf(c);
    if found < index {
      NextMonth(found);
      MonthsAhead(found + 1, index - (found + 1));
    }
  }

  lemma IndexOrder(i: int, j: int)
    ensures i < j <==> i / 12 < j / 12 || (i / 12 == j / 12 && i % 12 < j % 12)
    ensures i == j <==> i / 12 == j / 12 && i % 12 == j % 12
  {
  }

  lemma DatesAreMonotone(c: int, d: int)
    requires c < d
    ensures DateBefore(DateOf(c), DateOf(d))
  {
    MonthIsMonotone(c, d);
    IndexOrder(MonthOf(c), MonthOf(d));
  }

  lemma DayIsMonotone(s: int, t: int)
    requires s <= t
    ensures s / DAY <= t / DAY
  {
  }

  /** Later instants never have earlier periods. */
  lemma PeriodsAreMonotone(s: int, t: int, unit: GroupBy, offset: Offset)
    requires s <= t
    ensures
      || PeriodOf(s, unit, offset) == PeriodOf(t, unit, offset)
      || Earlier(PeriodOf(s, unit, offset), PeriodOf(t, unit, offset))
  {
    DayIsMonotone(s + offset, t + offset);
    DaysInOrder((s + offset) / DAY, (t + offset) / DAY);
    PeriodsFollowDates(DateKey(s, offset), DateKey(t, offset), unit);
  }

  lemma PeriodsFollowDates(x: Date, y: Date, unit: GroupBy)
    requires x == y || DateBefore(x, y)
    requires WeekOf(x) == WeekOf(y) || Before(WeekOf(x), WeekOf(y))
    ensures PeriodOn(x, unit) == PeriodOn(y, unit) || Earlier(PeriodOn(x, unit), PeriodOn(y, unit))
  {
  }

  lemma DaysInOrder(c: int, d: int)
    requires c <= d
    ensures c == d || DateBefore(DateOf(c), DateOf(d))
    ensures WeekOf(DateOf(c)) == WeekOf(DateOf(d)) || Before(WeekOf(DateOf(c)), WeekOf(DateOf(d)))
  {
    assert DayNumber(DateOf(c)) == c by { DateOfRoundTrip(c); }
    assert DayNumber(DateOf(d)) == d by { DateOfRoundTrip(d); }
    KeysAreMonotone(c, d);
    if c < d {
      DatesAreMonotone(c, d);
    }
  }

  /** The query returns rows by creation time, so the buckets are already in strict order of their periods. */
  lemma BucketsAreInOrder(rows: seq<Row>, unit: GroupBy, offset: Offset)
    requires forall i, j :: 0 <= i < j < |rows| ==> rows[i].createdAt <= rows[j].createdAt
    ensures StrictlyAscending(Periods(rows, unit, offset), Earlier)
  {
    var es := RevenueEntries(rows, unit, offset);
    forall i, j | 0 <= i < j < |es| ensures es[i].key == es[j].key || Earlier(es[i].key, es[j].key) {
      PeriodsAreMonotone(rows[i].createdAt, rows[j].createdAt, unit, offset);
    }
    OrderIsKept(es, Earlier);
  }

  // ---- keys as text ----

  predicate Printable(p: Period)
  {
    match p
    case DayOf(x) => 1000 <= x.year <= 9999 && 0 <= x.month <= 99 && 0 <= x.day <= 99
    case WeekIn(k) => Fits(k)
    case MonthIn(y, m) => 1000 <= y <= 9999 && 0 <= m <= 99
  }

  /** The period field of a bucket, for years of four digits. */
  function Text(p: Period): string
    requires Printable(p)
  {
    match p
    case DayOf(x) => Padded(x.year, 4) + ("-" + (Padded(x.month, 2) + ("-" + Padded(x.day, 2))))
    case WeekIn(k) => Render(k)
    case MonthIn(y, m) => Padded(y, 4) + ("-" + Padded(m, 2))
  }

  /** A smaller number first decides; the same number leaves it to what follows. */
  lemma NumberThenRest(a: nat, b: nat, width: nat, rest: string, more: string)
    requires a < PowerOfTen(width) && b < PowerOfTen(width)
    requires a < b || (a == b && TextBefore(rest, more))
    ensures TextBefore(Padded(a, width) + ("-" + rest), Padded(b, width) + ("-" + more))
  {
    if a < b {
      PaddedOrder(a, b, width);
      OrderSurvivesSuffix(Padded(a, width), Padded(b, width), "-" + rest, "-" + more);
    } else {
      OrderAfterPrefix("-", rest, more);
      OrderAfterPrefix(Padded(a, width), "-" + rest, "-" + more);
    }
  }

  /** Sorting the printed keys sorts the periods. */
  lemma TextOrderIsPeriodOrder(p: Period, q: Period)
    requires Printable(p) && Printable(q) && Earlier(p, q)
    ensures TextBefore(Text(p), Text(q))
  {
    assert PowerOfTen(2) == 100 && PowerOfTen(4) == 10_000;
    match (p, q)
    case (DayOf(x), DayOf(y)) =>
      if x.year == y.year {
        if x.month == y.month { PaddedOrder(x.day, y.day, 2); }
        NumberThenRest(x.month, y.month, 2, Padded(x.day, 2), Padded(y.day, 2));
      }
      NumberThenRest(x.year, y.year, 4,
                     Padded(x.month, 2) + ("-" + Padded(x.day, 2)), Padded(y.month, 2) + ("-" + Padded(y.day, 2)));
    case (WeekIn(k), WeekIn(l)) => TextOrderIsWeekOrder(k, l);
    case (MonthIn(y, m), MonthIn(z, n)) =>
      if y == z { PaddedOrder(m, n, 2); }
      NumberThenRest(y, z, 4, Padded(m, 2), Padded(n, 2));
  }

  /** The year that a period's key prints. */
  function YearOf(p: Period): int
  {
    match p
    case DayOf(x) => x.year
    case WeekIn(k) => k.year
    case MonthIn(y, _) => y
  }

  lemma DatePrints(date: Date, d: int, unit: GroupBy)
    requires Valid(date) && DayNumber(date) == d && 1000 <= YearOf(PeriodOn(date, unit)) <= 9999
    ensures Printable(PeriodOn(date, unit))
  {
    NextMonth(12 * date.year + date.month - 1);
    FirstThursdayRule(d);
  }

  lemma PeriodPrints(t: int, unit: GroupBy, offset: Offset)
    requires 1000 <= YearOf(PeriodOf(t, unit, offset)) <= 9999
    ensures Printable(PeriodOf(t, unit, offset))
  {
    DateOfRoundTrip((t + offset) / DAY);
    DatePrints(DateKey(t, offset), (t + offset) / DAY, unit);
  }

  lemma AllPeriodsPrint(rows: seq<Row>, unit: GroupBy, offset: Offset)
    requires forall p :: p in Periods(rows, unit, offset) ==> 1000 <= YearOf(p) <= 9999
    ensures forall p :: p in Periods(rows, unit, offset) ==> Printable(p)
  {
    var es := RevenueEntries(rows, unit, offset);
    FirstSeenExact(es);
    forall p | p in Periods(rows, unit, offset) ensures Printable(p) {
      var i :| 0 <= i < |es| && es[i].key == p;
      PeriodPrints(rows[i].createdAt, unit, offset);
    }
  }

  /** Rows by creation time, in years of four digits: the printed periods of the buckets are in strict text order,
      so the closing sort leaves every bucket where it is. */
  lemma SortHasNothingToDo(rows: seq<Row>, unit: GroupBy, offset: Offset)
    requires forall i, j :: 0 <= i < j < |rows| ==> rows[i].createdAt <= rows[j].createdAt
    requires forall p :: p in Periods(rows, unit, offset) ==> 1000 <= YearOf(p) <= 9999
    ensures var buckets := Grouped(rows, unit, offset);
      && (forall i :: 0 <= i < |buckets| ==> Printable(buckets[i].period))
      && (forall i, j :: 0 <= i < j < |buckets| ==> TextBefore(Text(buckets[i].period), Text(buckets[j].period)))
  {
    var buckets, ps := Grouped(rows, unit, offset), Periods(rows, unit, offset);
    AllPeriodsPrint(rows, unit, offset);
    BucketsAreInOrder(rows, unit, offset);
    forall i | 0 <= i < |buckets| ensures buckets[i].period == ps[i] && Printable(ps[i]) {
      assert ps[i] in ps;
    }
    forall i, j | 0 <= i < j < |buckets| ensures TextBefore(Text(buckets[i].period), Text(buckets[j].period)) {
      TextOrderIsPeriodOrder(ps[i], ps[j]);
    }
  }
}

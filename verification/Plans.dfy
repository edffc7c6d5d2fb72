/** Plan credits, prices and the length of paid time. */
module Plans {
  import opened Calendar

  datatype Plan = Free | Pro | Enterprise | Trial

  /** SUBSCRIPTION_LIMITS[plan].INITIAL_CREDITS */
  function InitialCredits(p: Plan): nat
  {
    match p
    case Free => 100
    case Pro => 1000
    case Enterprise => 5000
    case Trial => 200
  }

  datatype Currency = BDT | USD

  /** Price tables in hundredths of the currency unit. */
  datatype Pricing = Pricing(monthly: nat, annually: nat)

  /** SUBSCRIPTION_PRICING; checkout takes PRO and ENTERPRISE only, and has no TRIAL entry. */
  function PricingOf(p: Plan, c: Currency): Pricing
    requires p != Trial
  {
    match (p, c)
    case (Free, _) => Pricing(0, 0)
    case (Pro, BDT) => Pricing(99_900, 999_000)
    case (Pro, USD) => Pricing(999, 9_990)
    case (Enterprise, BDT) => Pricing(249_900, 2_499_000)
    case (Enterprise, USD) => Pricing(2_499, 24_990)
  }

  /** The price computation of both checkout sessions, proved to charge for n - 2 * (n / 12) months. */
  method CheckoutPrice(p: Plan, c: Currency, months: nat) returns (totalAmount: nat)
    requires p != Trial
    ensures totalAmount == Price(p, c, months)
  {
    var pricing := PricingOf(p, c);
    totalAmount := 0;
    if months == 12 {
      totalAmount := pricing.annually;
    } else if months > 12 {
      var years := months / 12;
      var remainingMonths := months % 12;
      totalAmount := years * pricing.annually + remainingMonths * pricing.monthly;
      PriceByYears(p, c, years, remainingMonths);
    } else {
      totalAmount := months * pricing.monthly;
    }
  }

  /** Every full year is billed as ten months. */
  function BilledMonths(months: nat): (n: nat)
    ensures 10 * months <= 12 * n && n <= months
  {
    months - 2 * (months / 12)
  }

  function Price(p: Plan, c: Currency, months: nat): nat
    requires p != Trial
  {
    BilledMonths(months) * PricingOf(p, c).monthly
  }

  lemma PriceByYears(p: Plan, c: Currency, years: nat, rest: nat)
    requires p != Trial && rest < 12
    ensures years * PricingOf(p, c).annually + rest * PricingOf(p, c).monthly == Price(p, c, 12 * years + rest)
  {
    assert (12 * years + rest) / 12 == years;
    match (p, c) case _ =>
  }

  /** The tariff in hundredths: a month and a year of each plan on sale, in each currency; and each plan's credits. */
  lemma Tariff()
    ensures Price(Pro, USD, 1) == 9_99 && Price(Pro, USD, 12) == 99_90
    ensures Price(Pro, BDT, 1) == 999_00 && Price(Pro, BDT, 12) == 9_990_00
    ensures Price(Enterprise, USD, 1) == 24_99 && Price(Enterprise, USD, 12) == 249_90
    ensures Price(Enterprise, BDT, 1) == 2_499_00 && Price(Enterprise, BDT, 12) == 24_990_00
    ensures InitialCredits(Free) == 100 && InitialCredits(Trial) == 200
    ensures InitialCredits(Pro) == 1_000 && InitialCredits(Enterprise) == 5_000
  {
  }

  /** Buying months in two purchases costs two months more exactly when the remainders make up another full year. */
  lemma SplitPurchase(p: Plan, c: Currency, a: nat, b: nat)
    requires p != Trial
    ensures Price(p, c, a) + Price(p, c, b) - Price(p, c, a + b)
         == if a % 12 + b % 12 >= 12 then 2 * PricingOf(p, c).monthly else 0
  {
    var carry := if a % 12 + b % 12 >= 12 then 1 else 0;
    assert (a + b) / 12 == a / 12 + b / 12 + carry;
    assert BilledMonths(a) + BilledMonths(b) == BilledMonths(a + b) + 2 * carry;
    Scale(BilledMonths(a), BilledMonths(b), BilledMonths(a + b), 2 * carry, PricingOf(p, c).monthly);
  }

  lemma Scale(a: nat, b: nat, c: nat, d: nat, rate: nat)
    requires a + b == c + d
    ensures a * rate + b * rate == c * rate + d * rate
  {
    assert (a + b) * rate == (c + d) * rate;
  }

  /** The price lies between ten twelfths of the plain monthly price and all of it. */
  lemma PriceBounds(p: Plan, c: Currency, months: nat)
    requires p != Trial
    ensures 10 * (months * PricingOf(p, c).monthly) <= 12 * Price(p, c, months)
    ensures Price(p, c, months) <= months * PricingOf(p, c).monthly
  {
    var n, rate := BilledMonths(months), PricingOf(p, c).monthly;
    Grow(n, months, rate);
    Grow(10 * months, 12 * n, rate);
  }

  lemma Grow(a: nat, b: nat, rate: nat)
    requires a <= b
    ensures a * rate <= b * rate
  {
  }

  // ---- paid time ----

  /** setMonth(getMonth() + k): the time of day stays, a day past the month's end overflows. */
  function AddMonths(t: int, k: nat): int
  {
    var date := DateOf(t / DAY);
    MakeDay(date.year, date.month + k, date.day) * DAY + t % DAY
  }

  function MonthIndex(t: int): int
  {
    MonthOf(t / DAY)
  }

  /** k months more are exactly the k months that start with the current one. */
  lemma AddMonthsExact(t: int, k: nat)
    ensures AddMonths(t, k) == t + DAY * MonthsLength(MonthIndex(t), k)
    ensures 28 * k <= MonthsLength(MonthIndex(t), k) <= 31 * k
  {
    var index := MonthIndex(t);
    MonthsAhead(index, k);
    assert 12 * (index / 12) + (index % 12 + 1 + k) - 1 == index + k;
    assert t == t / DAY * DAY + t % DAY;
  }

  /** Renewals of a running subscription, one after the other. */
  function Renewed(end: int, purchases: seq<nat>): int
  {
    if purchases == [] then end
    else AddMonths(Renewed(end, purchases[..|purchases| - 1]), purchases[|purchases| - 1])
  }

  function Sum(purchases: seq<nat>): nat
  {
    if purchases == [] then 0 else Sum(purchases[..|purchases| - 1]) + purchases[|purchases| - 1]
  }

  /** No sequence of renewals loses paid time: each month adds 28 to 31 days. */
  lemma {:induction false} RenewalsKeepPaidTime(end: int, purchases: seq<nat>)
    ensures end + 28 * Sum(purchases) * DAY <= Renewed(end, purchases) <= end + 31 * Sum(purchases) * DAY
  {
    if purchases != [] {
      var init, k := purchases[..|purchases| - 1], purchases[|purchases| - 1];
      RenewalsKeepPaidTime(end, init);
      AddMonthsExact(Renewed(end, init), k);
    }
  }

  /** Paying for a and then for b months ends at the same time as paying for both at once exactly when the
      day still exists a months later, or the month it would have lost has the length of the one it gains. */
  lemma SplitRenewalExact(t: int, a: nat, b: nat)
    ensures var index, day := MonthIndex(t), DateOf(t / DAY).day;
      AddMonths(AddMonths(t, a), b) == AddMonths(t, a + b) <==>
        day <= MonthLength(index + a) || MonthLength(index + a) == MonthLength(index + a + b)
  {
    SplitByLength(t, a, b);
    LandingMonth(t, a);
    MonthsShift(MonthIndex(t) + a, b);
  }

  lemma SplitByLength(t: int, a: nat, b: nat)
    ensures AddMonths(AddMonths(t, a), b) == AddMonths(t, a + b) <==>
      MonthsLength(MonthIndex(AddMonths(t, a)), b) == MonthsLength(MonthIndex(t) + a, b)
  {
    AddMonthsExact(t, a + b);
    AddTwice(t, a, b);
    MonthsSplit(MonthIndex(t), a, b);
  }

  lemma AddTwice(t: int, a: nat, b: nat)
    ensures AddMonths(AddMonths(t, a), b)
         == t + DAY * (MonthsLength(MonthIndex(t), a) + MonthsLength(MonthIndex(AddMonths(t, a)), b))
  {
    AddMonthsExact(t, a);
    AddMonthsExact(AddMonths(t, a), b);
  }

  /** The month that a months later falls in: the intended one, or the next when the day overflows. */
  lemma LandingMonth(t: int, a: nat)
    ensures var index, day := MonthIndex(t), DateOf(t / DAY).day;
      MonthIndex(AddMonths(t, a)) == if day <= MonthLength(index + a) then index + a else index + a + 1
  {
    LandingDay(t, a);
    MonthAfter(MonthIndex(t), t / DAY, a);
  }

  lemma LandingDay(t: int, a: nat)
    ensures AddMonths(t, a) / DAY == t / DAY + MonthsLength(MonthIndex(t), a)
  {
    AddMonthsExact(t, a);
    WholeDays(t, MonthsLength(MonthIndex(t), a));
  }

  lemma WholeDays(t: int, n: int)
    ensures (t + DAY * n) / DAY == t / DAY + n
  {
  }

  /** Where a day lands a months later: in that month, or, overflowing, in the next. */
  lemma MonthAfter(index: int, d: int, a: nat)
    requires InMonth(d, index)
    ensures var day := d - MonthStart(index) + 1;
      MonthOf(d + MonthsLength(index, a)) == if day <= MonthLength(index + a) then index + a else index + a + 1
  {
    var day, landing := d - MonthStart(index) + 1, d + MonthsLength(index, a);
    assert landing == MonthStart(index + a) + day - 1 by { MonthsAhead(index, a); }
    assert 1 <= day <= 31 by { NextMonth(index); }
    LandsIn(index + a, landing, day);
  }

  /** A day past the end of a month is an early day of the next. */
  lemma LandsIn(index: int, landing: int, day: int)
    requires landing == MonthStart(index) + day - 1 && 1 <= day <= 31
    ensures MonthOf(landing) == if day <= MonthLength(index) then index else index + 1
  {
    if day <= MonthLength(index) {
      MonthOfUnique(landing, index);
    } else {
      assert MonthStart(index + 1) == MonthStart(index) + MonthLength(index) && MonthLength(index) >= 28 by {
        NextMonth(index);
      }
      assert MonthLength(index + 1) >= 28 by { NextMonth(index + 1); }
      MonthOfUnique(landing, index + 1);
    }
  }

  lemma {:induction false} MonthsSplit(index: int, a: nat, b: nat)
    ensures MonthsLength(index, a + b) == MonthsLength(index, a) + MonthsLength(index + a, b)
  {
    if b > 0 {
      MonthsSplit(index, a, b - 1);
    }
  }

  /** Starting one month later trades the first month for the one after the last. */
  lemma {:induction false} MonthsShift(index: int, n: nat)
    ensures MonthsLength(index + 1, n) == MonthsLength(index, n) - MonthLength(index) + MonthLength(index + n)
  {
    if n > 0 {
      MonthsShift(index, n - 1);
    }
  }
}

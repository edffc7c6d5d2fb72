/** Day arithmetic of the Date object: sections 21.4.1.3 to 21.4.1.11 of ECMA-262. Day 0 is 1 January 1970. */
module Calendar {
  const DAY := 86_400_000

  /** Month is 1..12. */
  datatype Date = Date(year: int, month: int, day: int)

  predicate Leap(y: int)
  {
    y % 4 == 0 && (y % 100 != 0 || y % 400 == 0)
  }

  /** Months are numbered through: index 12 * year + (month - 1). */
  function MonthLength(index: int): int
  {
    var m := index % 12 + 1;
    if m == 2 then (if Leap(index / 12) then 29 else 28)
    else if m == 4 || m == 6 || m == 9 || m == 11 then 30
    else 31
  }

  const JANUARY_1970 := 12 * 1970

  /** First day of a month: the lengths of the months between it and January 1970. */
  function MonthStart(index: int): int
    decreases if index > JANUARY_1970 then index - JANUARY_1970 else JANUARY_1970 - index
  {
    if index == JANUARY_1970 then 0
    else if index > JANUARY_1970 then MonthStart(index - 1) + MonthLength(index - 1)
    else MonthStart(index + 1) - MonthLength(index)
  }

  lemma NextMonth(index: int)
    ensures MonthStart(index + 1) == MonthStart(index) + MonthLength(index)
    ensures 28 <= MonthLength(index) <= 31
  {
  }

  /** Total length of n months starting with the given one. */
  function MonthsLength(index: int, n: nat): int
  {
    if n == 0 then 0 else MonthsLength(index, n - 1) + MonthLength(index + n - 1)
  }

  lemma {:induction false} MonthsAhead(index: int, n: nat)
    ensures MonthStart(index + n) == MonthStart(index) + MonthsLength(index, n)
    ensures 28 * n <= MonthsLength(index, n) <= 31 * n
  {
    if n > 0 {
      MonthsAhead(index, n - 1);
      NextMonth(index + n - 1);
    }
  }

  // ---- from a day number back to the calendar ----

  predicate InMonth(d: int, index: int)
  {
    MonthStart(index) <= d < MonthStart(index) + MonthLength(index)
  }

  function FindMonth(d: int, guess: int): (index: int)
    ensures InMonth(d, index)
    decreases if d >= MonthStart(guess) then d - MonthStart(guess) else 31 + MonthStart(guess) - d
  {
    NextMonth(guess);
    NextMonth(guess - 1);
    if InMonth(d, guess) then guess
    else if d < MonthStart(guess) then FindMonth(d, guess - 1)
    else FindMonth(d, guess + 1)
  }

  /** The month index of a day. */
  function MonthOf(d: int): (index: int)
    ensures InMonth(d, index)
  {
    FindMonth(d, 12 * 1970 + d / 31)
  }

  lemma MonthOfUnique(d: int, index: int)
    requires InMonth(d, index)
    ensures MonthOf(d) == index
  {
    var found := MonthOf(d);
    NextMonth(found);
    NextMonth(index);
    if found < index {
      MonthsAhead(found + 1, index - (found + 1));
    } else if index < found {
      MonthsAhead(index + 1, found - (index + 1));
    }
  }

  /** YearFromTime, MonthFromTime and DateFromTime of a day. */
  function DateOf(d: int): Date
  {
    var index := MonthOf(d);
    Date(index / 12, index % 12 + 1, d - MonthStart(index) + 1)
  }

  /** MakeDay: month and day may overflow. */
  function MakeDay(year: int, month: int, day: int): int
  {
    MonthStart(12 * year + month - 1) + day - 1
  }

  function DayNumber(x: Date): int
  {
    MakeDay(x.year, x.month, x.day)
  }

  predicate Valid(x: Date)
  {
    1 <= x.month <= 12 && 1 <= x.day <= MonthLength(12 * x.year + x.month - 1)
  }

  lemma DateOfRoundTrip(d: int)
    ensures Valid(DateOf(d)) && DayNumber(DateOf(d)) == d
  {
    NextMonth(MonthOf(d));
  }

  /** Every calendar date is the date of exactly one day. */
  lemma DayNumberRoundTrip(x: Date)
    requires Valid(x)
    ensures DateOf(DayNumber(x)) == x
  {
    var index := 12 * x.year + x.month - 1;
    NextMonth(index);
    MonthOfUnique(DayNumber(x), index);
  }

  // ---- years ----

  /** DayFromYear, in closed form. */
  function YearStart(y: int): int
  {
    365 * (y - 1970) + (y - 1969) / 4 - (y - 1901) / 100 + (y - 1601) / 400
  }

  // One more year is one more multiple of 4, 100 or 400 exactly when that divides it.

  lemma Fours(y: int)
    ensures (y - 1968) / 4 == (y - 1969) / 4 + if y % 4 == 0 then 1 else 0
  {
  }

  lemma Hundreds(y: int)
    ensures (y - 1900) / 100 == (y - 1901) / 100 + if y % 100 == 0 then 1 else 0
  {
  }

  lemma FourHundreds(y: int)
    ensures (y - 1600) / 400 == (y - 1601) / 400 + if y % 400 == 0 then 1 else 0
  {
  }

  lemma YearLength(y: int)
    ensures YearStart(y + 1) == YearStart(y) + if Leap(y) then 366 else 365
  {
    Fours(y);
    Hundreds(y);
    FourHundreds(y);
    LeapCount(y);
  }

  lemma LeapCount(y: int)
    ensures (if y % 4 == 0 then 1 else 0) - (if y % 100 == 0 then 1 else 0) + (if y % 400 == 0 then 1 else 0)
         == if Leap(y) then 1 else 0
  {
  }

  /** Days of a year before its month m, counted from 0; m == 12 gives the whole year. */
  function DaysBefore(m: int, leap: bool): int
    requires 0 <= m <= 12
  {
    var extra := if leap then 1 else 0;
    [0, 31, 59 + extra, 90 + extra, 120 + extra, 151 + extra, 181 + extra, 212 + extra, 243 + extra,
     273 + extra, 304 + extra, 334 + extra, 365 + extra][m]
  }

  lemma LengthInYear(y: int, m: int)
    requires 0 <= m < 12
    ensures MonthLength(12 * y + m) == DaysBefore(m + 1, Leap(y)) - DaysBefore(m, Leap(y))
  {
    assert (12 * y + m) % 12 == m && (12 * y + m) / 12 == y;
  }

  lemma {:induction false} MonthsOfYear(y: int, m: nat)
    requires m <= 12
    ensures MonthsLength(12 * y, m) == DaysBefore(m, Leap(y))
  {
    if m > 0 {
      MonthsOfYear(y, m - 1);
      LengthInYear(y, m - 1);
    }
  }

  lemma MonthsInYear(y: int)
    ensures MonthStart(12 * y + 12) == MonthStart(12 * y) + if Leap(y) then 366 else 365
  {
    MonthsAhead(12 * y, 12);
    MonthsOfYear(y, 12);
  }

  /** The closed form counts the days of all months before the year. */
  lemma {:induction false} YearStartIsJanuary(y: int)
    ensures MonthStart(12 * y) == YearStart(y)
    decreases if y >= 1970 then y - 1970 else 1970 - y
  {
    if y > 1970 {
      YearStartIsJanuary(y - 1);
      MonthsInYear(y - 1);
      YearLength(y - 1);
      assert 12 * (y - 1) + 12 == 12 * y;
    } else if y < 1970 {
      YearStartIsJanuary(y + 1);
      MonthsInYear(y);
      YearLength(y);
      assert 12 * (y + 1) == 12 * y + 12;
    }
  }

  /** A month lies between the Januaries of its year and of the next. */
  lemma MonthWithinYear(y: int, m: nat)
    requires m < 12
    ensures MonthStart(12 * y) <= MonthStart(12 * y + m)
    ensures MonthStart(12 * y + m + 1) <= MonthStart(12 * y + 12)
  {
    MonthsAhead(12 * y, m);
    MonthsAhead(12 * y + m + 1, 11 - m);
  }

  lemma MonthInYear(d: int, y: int, m: nat)
    requires m < 12 && InMonth(d, 12 * y + m)
    ensures YearStart(y) <= d < YearStart(y + 1)
  {
    MonthWithinYear(y, m);
    NextMonth(12 * y + m);
    assert MonthStart(12 * y) == YearStart(y) by { YearStartIsJanuary(y); }
    assert MonthStart(12 * y + 12) == YearStart(y + 1) by {
      YearStartIsJanuary(y + 1);
      assert 12 * (y + 1) == 12 * y + 12;
    }
  }

  lemma YearAndMonth(index: int)
    ensures 12 * (index / 12) + index % 12 == index && 0 <= index % 12 < 12
  {
  }

  lemma YearBounds(d: int)
    ensures YearStart(DateOf(d).year) <= d < YearStart(DateOf(d).year + 1)
  {
    var index := MonthOf(d);
    YearAndMonth(index);
    MonthInYear(d, index / 12, index % 12);
  }

  lemma {:induction false} YearsAhead(y: int, n: nat)
    ensures YearStart(y + n) >= YearStart(y) + 365 * n
  {
    if n > 0 {
      YearsAhead(y, n - 1);
      YearLength(y + n - 1);
    }
  }

  lemma YearsApart(z: int, y: int)
    ensures z < y ==> YearStart(z + 1) <= YearStart(y)
  {
    if z < y {
      YearsAhead(z + 1, y - z - 1);
    }
  }

  lemma YearIsMonotone(c: int, d: int)
    requires c <= d
    ensures DateOf(c).year <= DateOf(d).year
  {
    YearBounds(c);
    YearBounds(d);
    YearsApart(DateOf(d).year, DateOf(c).year);
  }

  lemma YearAtLeast(d: int, y: int)
    requires d >= YearStart(y)
    ensures DateOf(d).year >= y
  {
    YearBounds(d);
    YearsApart(DateOf(d).year, y);
  }
}

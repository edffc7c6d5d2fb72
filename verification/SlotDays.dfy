/** The day of a slot listing: its working hours and its weekday on the zone's clock. */
module SlotDays {
  import opened Options
  import opened Store
  import opened BookingRules
  import opened Slots
  import opened Calendar
  import opened Timezones
  import opened WeekKeys

  /** Weekday that the listing checks: a bare date is read as midnight in UTC, then shown on the zone's clock. */
  function ListingWeekday(date: Date, offset: Offset): int
  {
    Weekday((DayNumber(date) * DAY + offset) / DAY)
  }

  /** The rule's hours on the zone's clock; closing hour 0 or none and duration 0 fall back to 18 and 30 minutes. */
  function WorkWindow(date: Date, offset: Offset, opening: nat, closing: Option<nat>, slotMinutes: nat): (w: Window)
    ensures w.step > 0
  {
    Window(ZonedToUtc(date, opening * HOUR, offset),
           ZonedToUtc(date, (if closing == None || closing.value == 0 then 18 else closing.value) * HOUR, offset),
           (if slotMinutes == 0 then 30 else slotMinutes) * 60_000)
  }

  lemma ShiftedDay(n: int, offset: int)
    requires -DAY < offset < DAY
    ensures (n * DAY + offset) / DAY == if offset >= 0 then n else n - 1
  {
  }

  lemma DayBefore(n: int)
    ensures Weekday(n - 1) != Weekday(n)
  {
  }

  /** The listing checks the weekday of the day asked for exactly in zones that are not west of Greenwich;
      elsewhere it checks that of the day before. */
  lemma ListingWeekdayExact(date: Date, offset: Offset)
    requires Valid(date) && Plausible(offset)
    ensures ListingWeekday(date, offset) == Weekday(DayNumber(date)) <==> offset >= 0
  {
    ShiftedDay(DayNumber(date), offset);
    DayBefore(DayNumber(date));
  }

  lemma ClockTimeIsOnDay(date: Date, offset: Offset, hour: nat)
    requires Valid(date) && date.year > 100 && Plausible(offset) && hour < 24
    ensures ZonedToUtc(date, hour * HOUR, offset) == DayNumber(date) * DAY + hour * HOUR - offset
  {
    NeighboursAreModern(date, hour * HOUR, offset);
    ZonedToUtcExact(date, hour * HOUR, offset);
    WholeSeconds(hour);
  }

  lemma WholeSeconds(hour: nat)
    ensures hour * HOUR % 1000 == 0
  {
  }

  lemma WithinDay(n: int, ms: int)
    requires n * DAY <= ms < (n + 1) * DAY
    ensures ms / DAY == n
  {
  }

  /** Midnight that begins a date on the zone's clock. */
  function Midnight(date: Date, offset: Offset): int
  {
    DayNumber(date) * DAY - offset
  }

  /** The closing hour in force: 18 when there is none, or 0. */
  function ClosingHour(closing: Option<nat>): nat
  {
    match closing
    case None => 18
    case Some(hour) => if hour == 0 then 18 else hour
  }

  /** The window opens and closes at the rule's hours on the zone's clock, and its step is the rule's minutes, or 30. */
  lemma HoursOnClock(date: Date, offset: Offset, opening: nat, closing: Option<nat>, slotMinutes: nat)
    requires Valid(date) && date.year > 100 && Plausible(offset)
    requires opening < 24 && (closing.Some? ==> closing.value < 24)
    ensures var w := WorkWindow(date, offset, opening, closing, slotMinutes);
      && w.open == Midnight(date, offset) + opening * 3_600_000
      && w.close == Midnight(date, offset) + ClosingHour(closing) * 3_600_000
      && w.step == (if slotMinutes == 0 then 30 else slotMinutes) * 60_000
  {
    ClockTimeIsOnDay(date, offset, opening);
    ClockTimeIsOnDay(date, offset, ClosingHour(closing));
  }

  // ---- the listing on the clock ----

  /** Every listed slot lies between the opening and the closing hour of its day. */
  lemma ListedWithinHours(
    s: State, r: ResourceId, date: Date, offset: Offset, opening: nat, closing: Option<nat>, slotMinutes: nat, x: Slot)
    requires r in s.resources && Valid(date) && date.year > 100 && Plausible(offset)
    requires opening < 24 && (closing.Some? ==> closing.value < 24)
    requires x in Listing(s, r, WorkWindow(date, offset, opening, closing, slotMinutes))
    ensures Midnight(date, offset) + opening * 3_600_000 <= x.start
    ensures x.end == x.start + (if slotMinutes == 0 then 30 else slotMinutes) * 60_000
    ensures x.end <= Midnight(date, offset) + ClosingHour(closing) * 3_600_000
  {
    var w := WorkWindow(date, offset, opening, closing, slotMinutes);
    ListingExact(s, r, w);
    HoursOnClock(date, offset, opening, closing, slotMinutes);
  }

  /** On a day to come on which no booking is within the buffer of the hours, as many slots are listed as
      whole steps fit between opening and closing. */
  lemma FreeDayExact(
    s: State, r: ResourceId, date: Date, offset: Offset, opening: nat, closing: Option<nat>, slotMinutes: nat)
    requires r in s.resources && Valid(date) && date.year > 100 && Plausible(offset)
    requires opening < 24 && (closing.Some? ==> closing.value < 24)
    requires s.now <= Midnight(date, offset) + opening * 3_600_000
    requires var buffer := s.resources[r].buffer;
      forall id :: id in s.bookings && s.bookings[id].resource == r && s.bookings[id].Blocking() ==>
        || s.bookings[id].start >= Midnight(date, offset) + ClosingHour(closing) * 3_600_000 + buffer
        || s.bookings[id].end <= Midnight(date, offset) + opening * 3_600_000 - buffer
    ensures var ms := (ClosingHour(closing) - opening) * 3_600_000;
      var step := (if slotMinutes == 0 then 30 else slotMinutes) * 60_000;
      |Listing(s, r, WorkWindow(date, offset, opening, closing, slotMinutes))| == if ms < 0 then 0 else ms / step
  {
    HoursOnClock(date, offset, opening, closing, slotMinutes);
    FreeListing(s, r, WorkWindow(date, offset, opening, closing, slotMinutes));
  }

  lemma FreeListing(s: State, r: ResourceId, w: Window)
    requires r in s.resources && w.step > 0 && s.now <= w.open
    requires forall id :: id in s.bookings && s.bookings[id].resource == r && s.bookings[id].Blocking() ==>
      || s.bookings[id].start >= w.close + s.resources[r].buffer
      || s.bookings[id].end <= w.open - s.resources[r].buffer
    ensures |Listing(s, r, w)| == if w.close < w.open then 0 else (w.close - w.open) / w.step
  {
    var p := slot => Offered(s, r, w, slot);
    GridAscends(w, w.open);
    forall x | x in Grid(w, w.open) ensures p(x) {
    }
    KeepAll(Grid(w, w.open), p);
    GridCount(w, w.open);
  }

  lemma {:induction false} KeepAll(slots: seq<Slot>, p: Slot -> bool)
    requires forall x :: x in slots ==> p(x)
    ensures Keep(slots, p) == slots
  {
    if slots != [] {
      assert slots[0] in slots;
      KeepAll(slots[1..], p);
    }
  }

  lemma {:induction false} GridCount(w: Window, from: int)
    requires w.step > 0
    ensures |Grid(w, from)| == if w.close < from then 0 else (w.close - from) / w.step
    decreases w.close - from
  {
    if from + w.step <= w.close {
      GridCount(w, from + w.step);
      OneStepLess(w.close - from, w.step);
    } else if from <= w.close {
      LessThanStep(w.close - from, w.step);
    }
  }

  lemma OneStepLess(ms: int, step: int)
    requires 0 < step <= ms
    ensures ms / step == (ms - step) / step + 1
  {
    var n := (ms - step) / step;
    assert (n + 1) * step == n * step + step;
    Quotient(ms, step, n + 1);
  }

  lemma LessThanStep(ms: int, step: int)
    requires 0 <= ms < step
    ensures ms / step == 0
  {
    Quotient(ms, step, 0);
  }

  lemma Quotient(ms: int, step: int, n: int)
    requires step > 0 && n * step <= ms < n * step + step
    ensures ms / step == n
  {
    Multiples(ms / step, n, step);
    Multiples(n, ms / step, step);
  }

  lemma Multiples(m: int, n: int, step: int)
    requires step > 0
    ensures m < n ==> m * step + step <= n * step
  {
    if m < n {
      assert (n - m - 1) * step >= 0;
    }
  }

  /** A slot inside the working hours starts on the day asked for, as createBooking sees it. */
  lemma SlotWeekday(date: Date, offset: Offset, w: Window, x: Slot)
    requires Midnight(date, offset) <= w.open && w.close < Midnight(date, offset) + DAY
    requires w.open <= x.start < x.end <= w.close
    ensures BookingWeekday(x.start, offset) == Weekday(DayNumber(date))
  {
    WithinDay(DayNumber(date), x.start + offset);
  }

  /** Listing and booking agree on the weekday of every listed slot exactly in zones not west of Greenwich. */
  lemma WeekdaysAgreeExactly(
    s: State, r: ResourceId, date: Date, offset: Offset, opening: nat, closing: Option<nat>, slotMinutes: nat, x: Slot)
    requires r in s.resources && Valid(date) && date.year > 100 && Plausible(offset)
    requires opening < 24 && (closing.Some? ==> closing.value < 24)
    requires x in Listing(s, r, WorkWindow(date, offset, opening, closing, slotMinutes))
    ensures ListingWeekday(date, offset) == BookingWeekday(x.start, offset) <==> offset >= 0
  {
    var w := WorkWindow(date, offset, opening, closing, slotMinutes);
    ListingExact(s, r, w);
    HoursOnClock(date, offset, opening, closing, slotMinutes);
    SlotWeekday(date, offset, w, x);
    ListingWeekdayExact(date, offset);
  }
}

module SlotsService {
  import opened Store
  import opened Slots
  import opened SlotDays

  datatype Answer = Listed(slots: seq<Slot>) | Unlisted(error: Error)

  /** getAvailableSlotsByResource: without opening hours the start of work is no date, which the query refuses. */
  method GetAvailableSlots(db: Database, r: ResourceId, date: Calendar.Date, offset: Timezones.Offset)
    returns (answer: Answer)
    ensures r !in db.resources ==> answer == Unlisted(NotFound)
    ensures r in db.resources ==>
      var rules := db.resources[r].rules;
      var days := if rules.Some? then rules.value.days else {};
      if days != {} && ListingWeekday(date, offset) !in days then answer == Unlisted(ClosedThatDay)
      else if rules.None? || rules.value.opening.None? then answer == Unlisted(InvalidSlot)
      else
        var hours := rules.value;
        answer == Listed(Listing(
          db.View(), r, WorkWindow(date, offset, hours.opening.value, hours.closing, hours.slotMinutes)))
  {
    if r !in db.resources {
      return Unlisted(NotFound);
    }
    var rules := db.resources[r].rules;
    var availableDays := if rules.Some? then rules.value.days else {};
    if |availableDays| > 0 && ListingWeekday(date, offset) !in availableDays {
      return Unlisted(ClosedThatDay);
    }
    if rules.None? || rules.value.opening.None? {
      return Unlisted(InvalidSlot);
    }
    var hours := rules.value;
    var slots := WalkSlots(db, r, WorkWindow(date, offset, hours.opening.value, hours.closing, hours.slotMinutes));
    return Listed(slots);
  }

  /** Walk the working hours slot by slot. */
  method WalkSlots(db: Database, r: ResourceId, w: Window) returns (available: seq<Slot>)
    requires r in db.resources && w.step > 0
    ensures available == Listing(db.View(), r, w)
  {
    var buffer := db.resources[r].buffer;
    ghost var s := db.View();
    available := [];
    var current := w.open;
    while current + w.step <= w.close
      invariant available + ListingFrom(s, r, w, current) == Listing(s, r, w)
      decreases w.close - current
    {
      var slot := Slot(current, current + w.step);
      ListingStep(s, r, w, current);
      if current < db.now {
        current := current + w.step;
        continue;
      }
      if !Occupied(db.bookings, r, w, buffer, slot) {
        available := available + [slot];
      }
      current := current + w.step;
    }
  }
}

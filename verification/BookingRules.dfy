/** The guards of createBooking and rescheduleBooking that look at the organization's plan and the resource's rules. */
module BookingRules {
  import opened Options
  import opened Store
  import Calendar
  import WeekKeys

  const FREE_MAX_RESOURCES := 2
  const FREE_MAX_USERS := 5

  /** What the service reads about the caller's organization; `foreign` when the resource asked for is another's. */
  datatype Office = Office(onFreePlan: bool, resourceCount: nat, staffCount: nat, active: bool, foreign: bool)

  predicate WithinPlan(office: Office)
  {
    office.onFreePlan ==> office.resourceCount <= FREE_MAX_RESOURCES && office.staffCount <= FREE_MAX_USERS
  }

  /** Weekday of an instant on a clock that is `offset` ahead of UTC. */
  function BookingWeekday(start: int, offset: int): int
  {
    WeekKeys.Weekday((start + offset) / Calendar.DAY)
  }

  /** The first rule that a booking of so many hours from `start` breaks, if any. */
  function RuleBroken(rules: Option<Rules>, start: int, hours: real, now: int, offset: int): Option<Error>
  {
    match rules
    case None => None
    case Some(rule) =>
      var day := BookingWeekday(start, offset);
      if (day == 0 || day == 6) && !rule.weekendAllowed then Some(ClosedOnWeekends)
      else if rule.days != {} && day !in rule.days then Some(ClosedThatDay)
      else if rule.maxHours != 0.0 && hours > rule.maxHours then Some(TooLong)
      else if start as real < now as real + rule.leadHours * 3_600_000.0 then Some(TooSoon)
      else None
  }

  /** A request passes the plan's limits unless a free organization has more than two resources or five members. */
  lemma WithinPlanExact(office: Office)
    ensures !WithinPlan(office) <==> office.onFreePlan && (office.resourceCount > 2 || office.staffCount > 5)
  {
  }

  /** Saturday and Sunday are the last two days of the week that starts on Monday. */
  predicate OnWeekend(start: int, offset: int)
  {
    var d := (start + offset) / 86_400_000;
    d - WeekKeys.Monday(d) >= 5
  }

  lemma WeekendExact(start: int, offset: int)
    ensures OnWeekend(start, offset) <==> BookingWeekday(start, offset) == 0 || BookingWeekday(start, offset) == 6
  {
    WeekendOfDay((start + offset) / Calendar.DAY);
  }

  lemma WeekendOfDay(d: int)
    ensures d - WeekKeys.Monday(d) >= 5 <==> WeekKeys.Weekday(d) == 0 || WeekKeys.Weekday(d) == 6
  {
  }

  /** What a rule forbids, and what the refusal says: the first of these that applies. */
  lemma RuleBrokenExact(rule: Rules, start: int, hours: real, now: int, offset: int)
    ensures var broken := RuleBroken(Some(rule), start, hours, now, offset);
      && (broken == Some(ClosedOnWeekends) <==> OnWeekend(start, offset) && !rule.weekendAllowed)
      && (broken == Some(ClosedThatDay) ==> |rule.days| > 0 && BookingWeekday(start, offset) !in rule.days)
      && (broken == Some(TooLong) ==> rule.maxHours < hours)
      && (broken == Some(TooSoon) ==> (start - now) as real < rule.leadHours * 3_600_000.0)
      && (broken == None <==>
            && (OnWeekend(start, offset) ==> rule.weekendAllowed)
            && (|rule.days| > 0 ==> BookingWeekday(start, offset) in rule.days)
            && (rule.maxHours == 0.0 || hours <= rule.maxHours)
            && (start - now) as real >= rule.leadHours * 3_600_000.0)
      && (broken.None? || broken.value in {ClosedOnWeekends, ClosedThatDay, TooLong, TooSoon})
  {
    WeekendExact(start, offset);
  }
}
